/** Progress of the resumable upload: one attempt with nothing going wrong finishes the job,
    sending exactly the parts that were not confirmed. */
module UploadProgress {
  import opened Prelude
  import opened Assembly
  import opened ObjectStore
  import opened Uploads
  import opened UploadSafety
  import opened Isolation
  import M = Meetings
  import L = Lifecycle

  /** Every call is answered, every record saved. */
  ghost predicate Smooth(f: Fates) {
    && f.resume == Delivered && f.resumeStore == Answers && f.lost == {}
    && f.finish == Delivered && f.finishStore == Answers && f.finishCommits
    && f.mark
    && forall k: nat :: f.put(k) == Delivered && f.save(k)
  }

  /** The server waits for the parts of the upload the record on disk names. */
  ghost predicate Waiting(s: System) {
    && s.vault == Owed && s.disk.Some?
    && var p := s.disk.value;
       && p.meeting in s.server.db.rows
       && s.server.db.rows[p.meeting].status == M.Uploading
       && s.server.db.rows[p.meeting].uploadId == Some(p.uploadId)
       && p.uploadId in s.server.store.uploads
  }

  /** All of the recording can still be read. */
  predicate Sound(c: Client, s: System) {
    Unharmed(c.rec, s.damaged)
  }

  /** Parts sent so far. */
  function Sends(log: seq<Call>): nat {
    if log == [] then 0 else Sends(log[..|log| - 1]) + (if log[|log| - 1].Sending? then 1 else 0)
  }

  lemma SendsNote(log: seq<Call>, call: Call)
    ensures Sends(log + [call]) == Sends(log) + (if call.Sending? then 1 else 0)
  {
    assert (log + [call])[..|log|] == log;
  }

  lemma WaitingHasData(env: M.Env, c: Client, s: System, initial: nat)
    requires env.partSize > 0 && Readable(c.rec) && SysInv(env, c, s, initial) && Waiting(s)
    ensures Plain(c.rec) != []
  {
    var p := s.disk.value;
    assert OursOk(env, c, s.server, p.meeting, Plain(c.rec));
    assert L.RowOk(s.server.db.org.id, p.meeting, s.server.db.rows[p.meeting],
                   s.server.db.transcripts[p.meeting], s.server.db.reports[p.meeting]);
  }

  lemma SmoothOpen(env: M.Env, c: Client, s: System, f: Fates, initial: nat)
    requires env.partSize > 0 && Readable(c.rec) && SysInv(env, c, s, initial) && Waiting(s) && Smooth(f)
    ensures var p := s.disk.value;
            var (after, r) := Open(env, c, s, p.meeting, Plain(c.rec), f);
            && r.Ok? && r.value.1 == p && TicketFits(env, r.value.0, p, Plain(c.rec))
            && after == Note(s, Resuming(p.meeting))
  {
    WaitingHasData(env, c, s, initial);
    var p := s.disk.value;
    assert OursOk(env, c, s.server, p.meeting, Plain(c.rec));
    assert L.RowOk(s.server.db.org.id, p.meeting, s.server.db.rows[p.meeting],
                   s.server.db.transcripts[p.meeting], s.server.db.reports[p.meeting]);
    ResumedTicketFits(env, c, Note(s, Resuming(p.meeting)), p, Plain(c.rec), f.resume, f.resumeStore);
    hide L.Inv, L.RowOk, StoredOk, LogOk, Plain, Cut;
  }

  /** One answered part, written down. */
  lemma SmoothSlot(s: System, uploadId: nat, p: Progress, bytes: Bytes)
    requires InOrder(p.confirmed) && uploadId in s.server.store.uploads
    ensures var k := |p.confirmed|;
            var (after, tag) := SendPart(s, uploadId, k + 1, bytes, Delivered);
            && tag.Ok?
            && var more := Accept(p, Confirmed(k + 1, tag.value));
               && InOrder(more.confirmed) && |more.confirmed| == k + 1 && more.uploadId == p.uploadId
               && uploadId in after.server.store.uploads && after.server.db == s.server.db
               && Sends(Write(after, more).log) == Sends(s.log) + 1
  {
    var k := |p.confirmed|;
    var (after, tag) := SendPart(s, uploadId, k + 1, bytes, Delivered);
    AcceptNext(p, Confirmed(k + 1, tag.value));
    hide Accept, Holds, InOrder, Sends;
    SendsNote(s.log, Sending(uploadId, k + 1));
    SendsNote(after.log, Saved(Accept(p, Confirmed(k + 1, tag.value))));
  }

  lemma AcceptNext(p: Progress, tag: Confirmed)
    requires InOrder(p.confirmed) && tag.number == |p.confirmed| + 1
    ensures var more := Accept(p, tag);
            InOrder(more.confirmed) && |more.confirmed| == tag.number && more.uploadId == p.uploadId
  {
    HoldsPrefix(p, tag.number);
  }

  /** With every call answered the loop sends the missing parts, each once. */
  lemma {:induction false} SmoothSend(s: System, h: Handout, ticket: Ticket, p: Progress, k: nat, f: Fates)
    requires Smooth(f) && ticket.count == |h.pieces| && ticket.uploadId == p.uploadId
    requires InOrder(p.confirmed) && k <= |p.confirmed| <= ticket.count
    requires p.uploadId in s.server.store.uploads
    ensures var (after, r) := Send(s, h, ticket, p, k, f);
            && r.Ok? && p.uploadId in after.server.store.uploads && after.server.db == s.server.db
            && Sends(after.log) == Sends(s.log) + |h.pieces| - |p.confirmed|
    decreases ticket.count - k
  {
    hide Send, SendPart, Write, Accept, Sends, Holds, InOrder;
    if k == |p.confirmed| && k < ticket.count {
      HoldsPrefix(p, k + 1);
      assert f.put(k) == Delivered && f.save(k);
      SmoothSlot(s, ticket.uploadId, p, h.pieces[k]);
      var (after, tag) := SendPart(s, ticket.uploadId, k + 1, h.pieces[k], f.put(k));
      var more := Accept(p, Confirmed(k + 1, tag.value));
      WriteLeavesServer(after, more);
      SendOneMore(s, h, ticket, p, k, f);
      SmoothSend(Write(after, more), h, ticket, more, k + 1, f);
    } else if k < ticket.count {
      HoldsPrefix(p, k + 1);
      SendSkips(s, h, ticket, p, k, f);
      SmoothSend(s, h, ticket, p, k + 1, f);
    } else {
      SendEnds(s, h, ticket, p, f);
    }
  }

  lemma SendEnds(s: System, h: Handout, ticket: Ticket, p: Progress, f: Fates)
    ensures Send(s, h, ticket, p, ticket.count, f) == (s, Ok(p))
  {
  }

  lemma SendSkips(s: System, h: Handout, ticket: Ticket, p: Progress, k: nat, f: Fates)
    requires k < ticket.count && k < |h.pieces| && Holds(p, k + 1)
    ensures Send(s, h, ticket, p, k, f) == Send(s, h, ticket, p, k + 1, f)
  {
  }

  lemma SendOneMore(s: System, h: Handout, ticket: Ticket, p: Progress, k: nat, f: Fates)
    requires k < ticket.count && k < |h.pieces| && !Holds(p, k + 1) && f.save(k)
    requires SendPart(s, ticket.uploadId, k + 1, h.pieces[k], f.put(k)).1.Ok?
    ensures var (after, tag) := SendPart(s, ticket.uploadId, k + 1, h.pieces[k], f.put(k));
            var more := Accept(p, Confirmed(k + 1, tag.value));
            Send(s, h, ticket, p, k, f) == Send(Write(after, more), h, ticket, more, k + 1, f)
  {
  }

  lemma WriteLeavesServer(s: System, p: Progress)
    ensures Write(s, p).server == s.server
  {
  }

  /** The service accepts a completed upload of the declared size. */
  lemma FinalizeAccepts(a: M.Server, e: M.Event, now: int, data: Bytes)
    requires e.Finish? && e.m in a.db.rows && e.fate == Answers && a.db.rows[e.m].createdBy == e.caller.id
    requires a.db.rows[e.m].status == M.Uploading && a.db.rows[e.m].audioKey.Some?
    requires a.db.rows[e.m].audioBytes == Some(|data|)
    requires var key := a.db.rows[e.m].audioKey.value;
             var done := Complete(a.store, key, e.uploadId, e.tags);
             done.Some? && done.value.objects == a.store.objects[key := data]
    ensures FinalizeOf(a, e, now).result.Ok?
  {
  }

  lemma AcceptedCommits(env: M.Env, a: M.Server, e: M.Event, now: int, initial: nat)
    requires env.partSize > 0 && L.Inv(a, initial) && e.Finish? && M.Visible(a.db, e.m, e.caller)
    requires FinalizeOf(a, e, now).result.Ok?
    ensures M.Step(env, a, e, now, true).reply.Ok?
  {
    L.RowsAreUnique(a.db);
    var db := M.Save(a.db, e.m, FinalizeOf(a, e, now).result.value);
    assert M.Unique(db);
  }

  /** Finishing an upload whose parts are all held is accepted. */
  lemma SmoothFinish(env: M.Env, c: Client, a: M.Server, e: M.Event, p: Progress, now: int, initial: nat, data: Bytes)
    requires env.partSize > 0 && data != [] && L.Inv(a, initial)
    requires OursOk(env, c, a, p.meeting, data) && RecordOk(env, a, p, data)
    requires |p.confirmed| == |Cut(data, env.partSize)|
    requires a.db.rows[p.meeting].status == M.Uploading && p.uploadId in a.store.uploads
    requires e.Finish? && e.m == p.meeting && e.caller == c.user && e.uploadId == p.uploadId
    requires e.tags == p.confirmed && e.fate == Answers
    ensures M.Step(env, a, e, now, true).reply.Ok?
  {
    hide M.Step, M.Finalize;
    var key := AudioKey(a.db.org.id, p.meeting);
    assert L.RowOk(a.db.org.id, p.meeting, a.db.rows[p.meeting], a.db.transcripts[p.meeting], a.db.reports[p.meeting]);
    CompleteStoresTheData(a.store, key, p.uploadId, p.confirmed, data, env.partSize);
    FinalizeAccepts(a, e, now, data);
    AcceptedCommits(env, a, e, now, initial);
  }

  /** The recording, arrived: off what is owed, in the queue or held for quota, in the store. */
  ghost predicate Arrived(before: System, after: System, r: Result<nat, UploadError>, m: nat, data: Bytes) {
    && r == Ok(m) && after.vault == Uploaded
    && m in after.server.db.rows && after.server.db.rows[m].status in {M.Queued, M.QuotaHold}
    && AudioKey(before.server.db.org.id, m) in after.server.store.objects
    && after.server.store.objects[AudioKey(before.server.db.org.id, m)] == data
  }

  /** The parts and the closing of an attempt whose upload is open. */
  lemma SmoothRest(env: M.Env, c: Client, s: System, ticket: Ticket, f: Fates, initial: nat)
    requires env.partSize > 0 && Readable(c.rec) && SysInv(env, c, s, initial) && Waiting(s) && Smooth(f)
    requires Sound(c, s) && TicketFits(env, ticket, s.disk.value, Plain(c.rec))
    ensures var p := s.disk.value;
            var (s3, sent) := Send(s, HandedOver(c, s, Max(ticket.partSize, 1)), ticket, p, 0, f);
            && sent.Ok?
            && var (after, r) := Close(env, c, s3, p.meeting, sent.value, f);
               && Arrived(s, after, r, p.meeting, Plain(c.rec))
               && Sends(after.log) == Sends(s.log) + |Cut(Plain(c.rec), env.partSize)| - |p.confirmed|
  {
    hide M.Step, Send, Close, SysInv;
    WaitingHasData(env, c, s, initial);
    var p, h := s.disk.value, HandedOver(c, s, Max(ticket.partSize, 1));
    DamagedFits(c.rec, s.damaged, env.partSize);
    RecordInOrder(env, c, s, initial);
    SmoothSend(s, h, ticket, p, 0, f);
    SendKeeps(env, c, s, h, ticket, p, 0, f, initial);
    var (s3, sent) := Send(s, h, ticket, p, 0, f);
    SmoothClose(env, c, s3, sent.value, f, initial);
  }

  /** From any state where the server waits for the upload the record names, one attempt with
      nothing going wrong delivers the recording and sends only what was not confirmed. */
  lemma OneSmoothAttemptDelivers(env: M.Env, c: Client, s: System, f: Fates, initial: nat)
    requires env.partSize > 0 && Readable(c.rec) && SysInv(env, c, s, initial) && Waiting(s) && Sound(c, s) && Smooth(f)
    ensures var p := s.disk.value;
            var (after, r) := Attempt(env, c, s, f);
            && r == Ok(p.meeting) && after.vault == Uploaded
            && p.meeting in after.server.db.rows
            && after.server.db.rows[p.meeting].status in {M.Queued, M.QuotaHold}
            && AudioKey(s.server.db.org.id, p.meeting) in after.server.store.objects
            && after.server.store.objects[AudioKey(s.server.db.org.id, p.meeting)] == Plain(c.rec)
            && Sends(after.log) == Sends(s.log) + |Cut(Plain(c.rec), env.partSize)| - |p.confirmed|
  {
    hide M.Step, Open, Send, Close, SysInv, HandedOver;
    WaitingHasData(env, c, s, initial);
    DamagedFits(c.rec, s.damaged, env.partSize);
    var p, data := s.disk.value, Plain(c.rec);
    SmoothOpen(env, c, s, f, initial);
    ResumeOpens(env, c, s, p.meeting, f, initial);
    var (s2, opening) := Open(env, c, s, p.meeting, data, f);
    SendsNote(s.log, Resuming(p.meeting));
    NothingLost(s2, f);
    SmoothRest(env, c, s2, opening.value.0, f, initial);
  }

  lemma NothingLost(s: System, f: Fates)
    requires f.lost == {}
    ensures Decay(s, f.lost) == s
  {
    assert s.damaged + {} == s.damaged;
  }

  lemma SmoothClose(env: M.Env, c: Client, s: System, p: Progress, f: Fates, initial: nat)
    requires env.partSize > 0 && Readable(c.rec) && SysInv(env, c, s, initial) && Smooth(f)
    requires s.vault == Owed && s.disk == Some(p) && Plain(c.rec) != []
    requires |p.confirmed| == |Cut(Plain(c.rec), env.partSize)|
    requires p.meeting in s.server.db.rows && s.server.db.rows[p.meeting].status == M.Uploading
    requires p.uploadId in s.server.store.uploads
    ensures var (after, r) := Close(env, c, s, p.meeting, p, f);
            && r == Ok(p.meeting) && after.vault == Uploaded
            && p.meeting in after.server.db.rows
            && after.server.db.rows[p.meeting].status in {M.Queued, M.QuotaHold}
            && AudioKey(s.server.db.org.id, p.meeting) in after.server.store.objects
            && after.server.store.objects[AudioKey(s.server.db.org.id, p.meeting)] == Plain(c.rec)
            && Sends(after.log) == Sends(s.log)
  {
    hide M.Step, L.Inv, StoredOk, LogOk, Cut, Plain;
    var e := M.Finish(p.meeting, c.user, p.uploadId, p.confirmed, f.finishStore, f.deletion);
    SmoothFinish(env, c, s.server, e, p, f.now, initial, Plain(c.rec));
    CloseKeeps(env, c, s, p, f, initial);
    SendsNote(s.log, Finishing(p.meeting));
    SendsNote(s.log + [Finishing(p.meeting)], FinishAnswered(p.meeting));
  }

  // ------------------------------------------------------------ and only from there

  lemma {:induction false} SendOpensNothing(s: System, h: Handout, ticket: Ticket, p: Progress, k: nat, f: Fates)
    requires k <= ticket.count
    ensures var (after, r) := Send(s, h, ticket, p, k, f);
            && after.server.store.uploads.Keys == s.server.store.uploads.Keys
            && (after.disk == s.disk
                || (after.disk.Some? && after.disk.value.meeting == p.meeting && after.disk.value.uploadId == p.uploadId))
    decreases ticket.count - k
  {
    if k < ticket.count && k < |h.pieces| {
      if Holds(p, k + 1) {
        SendOpensNothing(s, h, ticket, p, k + 1, f);
      } else {
        var (after, tag) := SendPart(s, ticket.uploadId, k + 1, h.pieces[k], f.put(k));
        if tag.Ok? && f.save(k) {
          var more := Accept(p, Confirmed(k + 1, tag.value));
          SendOpensNothing(Write(after, more), h, ticket, more, k + 1, f);
        }
      }
    }
  }

  /** With a record on disk and nothing going wrong in this attempt, it succeeds exactly when
      the server is waiting for the upload the record names and the recording can be read. */
  lemma SmoothAttemptSucceedsIff(env: M.Env, c: Client, s: System, f: Fates, initial: nat)
    requires env.partSize > 0 && Readable(c.rec) && SysInv(env, c, s, initial) && Smooth(f)
    requires s.vault == Owed && s.disk.Some?
    ensures Attempt(env, c, s, f).1.Ok? <==> Waiting(s) && Sound(c, s)
  {
    hide M.Step, Open, Send, Close, SysInv;
    if !Sound(c, s) {
      HarmedAttempt(env, c, s, f);
    } else if Waiting(s) {
      OneSmoothAttemptDelivers(env, c, s, f, initial);
    } else {
      StuckTry(env, c, s, f, initial);
    }
  }

  /** An access token the API no longer takes makes the queue report as abandoned a recording
      that is still owed and that the next attempt would deliver. */
  lemma ExpiredTokenAbandons(env: M.Env, c: Client, s: System, f: Fates, next: Fates, initial: nat)
    requires env.partSize > 0 && Readable(c.rec) && SysInv(env, c, s, initial) && Waiting(s)
    requires Sound(c, s) && f.resume == TurnedAway && Smooth(next)
    ensures var (after, r) := Attempt(env, c, s, f);
            && r == Err(Api(SessionExpired)) && Abandoned(r) && after.vault == Owed
            && Attempt(env, c, after, next).1 == Ok(s.disk.value.meeting)
  {
    WaitingHasData(env, c, s, initial);
    var m := s.disk.value.meeting;
    RecordIsOurs(env, c, s, initial);
    var noted := Note(s, Resuming(m));
    ResumeOpens(env, c, s, m, f, initial);
    assert Attempt(env, c, s, f) == (noted, Err(Api(SessionExpired))) by {
      DamagedFits(c.rec, s.damaged, env.partSize);
      hide SysInv, Send, Close;
    }
    OneSmoothAttemptDelivers(env, c, noted, next, initial);
  }

  // ------------------------------------------------------------ without a record

  /** A first attempt with every call answered and everything written down and committed. */
  ghost predicate SmoothFirst(f: Fates) {
    && Smooth(f)
    && f.declare == Delivered && f.declareCommits
    && f.start == Delivered && f.startStore == Answers && f.startCommits && f.saveFresh
  }

  /** What a first attempt needs of the server: an identifier nobody used, or the meeting it
      was given, still as it was declared. */
  predicate CanStart(c: Client, s: System, declareAs: nat) {
    if c.meetingId.None? then declareAs !in s.server.db.rows
    else
      && c.meetingId.value in s.server.db.rows
      && s.server.db.rows[c.meetingId.value].status == M.Created
  }

  lemma DeclareAnswers(env: M.Env, a: M.Server, e: M.Event, now: int, initial: nat)
    requires env.partSize > 0 && L.Inv(a, initial) && e.Declare?
    ensures var o := M.Step(env, a, e, now, true);
            && (o.reply.Ok? <==> e.m !in a.db.rows)
            && (o.reply.Ok? ==> o.server.db.org == a.db.org && e.m in o.server.db.rows
                                && o.server.db.rows[e.m].status == M.Created)
  {
    L.RowsAreUnique(a.db);
  }

  lemma StartAnswers(env: M.Env, a: M.Server, e: M.Event, now: int, initial: nat)
    requires env.partSize > 0 && L.Inv(a, initial) && e.Start? && e.fate == Answers
    requires e.m in a.db.rows && a.db.rows[e.m].createdBy == e.caller.id
    ensures M.Step(env, a, e, now, true).reply.Ok?
            <==> a.db.rows[e.m].status == M.Created && PartCountFor(e.declared.size, env.partSize).Ok?
  {
    if a.db.rows[e.m].status == M.Created {
      StartEffect(env, a, e, now, true, initial);
    } else {
      StartRefused(env, a, e, now, true);
    }
    hide M.Step, PartCountFor, L.Inv;
  }

  lemma StartRefused(env: M.Env, a: M.Server, e: M.Event, now: int, commits: bool)
    requires env.partSize > 0 && e.Start? && e.m in a.db.rows && a.db.rows[e.m].status != M.Created
    ensures var o := M.Step(env, a, e, now, commits);
            o.reply.Err? && o.server == a
  {
    hide PartCountFor, StartMultipart, M.Unique;
  }

  lemma FirstIdentify(env: M.Env, c: Client, s: System, f: Fates, initial: nat)
    requires env.partSize > 0 && Readable(c.rec) && SysInv(env, c, s, initial) && SmoothFirst(f)
    requires s.vault == Owed && s.disk.None?
    ensures var (after, who) := Identify(env, c, s, f);
            && (who.Err? ==> !CanStart(c, s, f.declareAs))
            && (who.Ok? ==>
                  && after.server.db.org == s.server.db.org && who.value in after.server.db.rows
                  && (after.server.db.rows[who.value].status == M.Created <==> CanStart(c, s, f.declareAs)))
            && Sends(after.log) == Sends(s.log) && after.damaged == s.damaged
  {
    if c.meetingId.None? {
      DeclareAnswers(env, s.server, M.Declare(f.declareAs, c.user, false), f.now, initial);
      hide M.Step;
      SendsNote(s.log, Declaring(Some(f.declareAs)));
      SendsNote(s.log, Declaring(None));
    } else {
      assert Ours(c, s.log, c.meetingId.value);
      assert OursOk(env, c, s.server, c.meetingId.value, Plain(c.rec));
    }
  }

  /** Starting the upload of a meeting of ours, with nothing going wrong. */
  lemma FirstOpen(env: M.Env, c: Client, s: System, m: nat, f: Fates, initial: nat)
    requires env.partSize > 0 && Readable(c.rec) && SysInv(env, c, s, initial) && SmoothFirst(f)
    requires s.vault == Owed && s.disk.None? && Plain(c.rec) != [] && Ours(c, s.log, m)
    ensures var (after, r) := Open(env, c, s, m, Plain(c.rec), f);
            && m in s.server.db.rows && after.server.db.org.id == s.server.db.org.id
            && (r.Ok? <==> s.server.db.rows[m].status == M.Created && PartCountFor(|Plain(c.rec)|, env.partSize).Ok?)
            && (r.Ok? ==> Waiting(after) && after.disk.value.confirmed == [])
            && Sends(after.log) == Sends(s.log) && after.damaged == s.damaged
  {
    var noted := Note(s, Starting(m));
    var e := M.Start(m, c.user, Declaration(env, c, Plain(c.rec)), f.startStore);
    assert OursOk(env, c, s.server, m, Plain(c.rec));
    FirstStart(env, noted, e, f.now, initial);
    hide SysInv, OursOk, M.Step, L.Inv, Plain, Readable, Sends, PartCountFor, Ask;
    var (asked, reply) := Ask(env, noted, e, f.now, true, Delivered);
    SendsNote(s.log, Starting(m));
    if reply.Ok? {
      SendsNote(asked.log, Saved(Progress(m, reply.value.ticket.uploadId, |Plain(c.rec)|, env.hash(Plain(c.rec)), [])));
    }
  }

  lemma FirstStart(env: M.Env, s: System, e: M.Event, now: int, initial: nat)
    requires env.partSize > 0 && L.Inv(s.server, initial) && e.Start? && e.fate == Answers
    requires e.m in s.server.db.rows && s.server.db.rows[e.m].createdBy == e.caller.id
    ensures var (after, r) := Ask(env, s, e, now, true, Delivered);
            && after == s.(server := after.server) && after.server.db.org.id == s.server.db.org.id
            && (r.Ok? <==> s.server.db.rows[e.m].status == M.Created && PartCountFor(e.declared.size, env.partSize).Ok?)
            && (r.Ok? ==>
                  && r.value.Opened? && e.m in after.server.db.rows
                  && after.server.db.rows[e.m].status == M.Uploading
                  && after.server.db.rows[e.m].uploadId == Some(r.value.ticket.uploadId)
                  && r.value.ticket.uploadId in after.server.store.uploads)
  {
    hide PartCountFor, L.Inv, M.Step;
    StartAnswers(env, s.server, e, now, initial);
    StartOutcome(env, s.server, e, now, true, initial);
    hide StartMultipart;
    StartedIsOpen(s.server.store, AudioKey(s.server.db.org.id, e.m));
  }

  lemma StartedIsOpen(store: StoreState, key: Key)
    ensures store.nextUpload in StartMultipart(store, key).uploads
  {
  }

  /** Without a record on disk and with nothing going wrong, an attempt succeeds exactly when
      the recording can be read, the store takes one of this size and the server can start its
      upload; it then sends every part once and delivers the recording. */
  lemma SmoothFirstAttemptSucceedsIff(env: M.Env, c: Client, s: System, f: Fates, initial: nat)
    requires env.partSize > 0 && Readable(c.rec) && SysInv(env, c, s, initial) && SmoothFirst(f)
    requires s.vault == Owed && s.disk.None? && Plain(c.rec) != []
    ensures var (after, r) := Attempt(env, c, s, f);
            && (r.Ok? <==> Sound(c, s) && PartCountFor(|Plain(c.rec)|, env.partSize).Ok? && CanStart(c, s, f.declareAs))
            && (r.Ok? ==>
                  && Arrived(s, after, r, r.value, Plain(c.rec))
                  && Sends(after.log) == Sends(s.log) + |Cut(Plain(c.rec), env.partSize)|)
  {
    DamagedFits(c.rec, s.damaged, env.partSize);
    assert f.lost == {};
    hide SysInv, M.Step, Open, Close, Send, Identify, Sends, PartCountFor, CanStart, HandedOver, Waiting, Smooth, Damaged;
    var data := Plain(c.rec);
    var (s1, who) := Identify(env, c, s, f);
    IdentifyKeeps(env, c, s, f, initial);
    FirstIdentify(env, c, s, f, initial);
    if Sound(c, s) && who.Ok? {
      var (s2, opening) := Open(env, c, s1, who.value, data, f);
      OpenKeeps(env, c, s1, who.value, f, initial);
      FirstOpen(env, c, s1, who.value, f, initial);
      if opening.Ok? {
        NothingLost(s2, f);
        SmoothRest(env, c, s2, opening.value.0, f, initial);
      }
    }
  }

  // ------------------------------------------------------------ stranded

  /** No record on disk, and the meeting the recording belongs to is past its declaration. */
  ghost predicate Stranded(c: Client, s: System) {
    && s.vault == Owed && s.disk.None? && c.meetingId.Some?
    && c.meetingId.value in s.server.db.rows
    && s.server.db.rows[c.meetingId.value].status != M.Created
  }

  /** The start took effect on the server and no record of it was written down: its answer was
      lost or could not be understood, or the disk refused the record. */
  predicate StartIsLost(env: M.Env, size: nat, f: Fates)
    requires env.partSize > 0
  {
    && PartCountFor(size, env.partSize).Ok? && f.startStore == Answers && f.startCommits
    && (f.start in {AnswerLost, AnswerGarbled} || (f.start == Delivered && !f.saveFresh))
  }

  /** A first attempt on a meeting that can be started leaves its recording stranded exactly
      when it gets as far as the start and the start is lost. */
  lemma LostStartStrands(env: M.Env, c: Client, s: System, f: Fates, initial: nat)
    requires env.partSize > 0 && Readable(c.rec) && SysInv(env, c, s, initial)
    requires s.vault == Owed && s.disk.None? && Plain(c.rec) != []
    requires c.meetingId.Some? && CanStart(c, s, f.declareAs)
    ensures Stranded(c, Attempt(env, c, s, f).0) <==> Sound(c, s) && StartIsLost(env, |Plain(c.rec)|, f)
  {
    DamagedFits(c.rec, s.damaged, env.partSize);
    var m, data := c.meetingId.value, Plain(c.rec);
    assert Ours(c, s.log, m);
    StartStrands(env, c, s, m, f, initial);
    hide SysInv, M.Step, Open, Send, StartIsLost, HandedOver, Ask, Readable, Damaged;
    assert Identify(env, c, s, f) == (s, Ok(m));
    var (s2, opening) := Open(env, c, s, m, data, f);
    if opening.Ok? {
      var (ticket, p) := opening.value;
      var again := Decay(s2, f.lost);
      SendOpensNothing(again, HandedOver(c, again, Max(ticket.partSize, 1)), ticket, p, 0, f);
      var (s3, sent) := Send(again, HandedOver(c, again, Max(ticket.partSize, 1)), ticket, p, 0, f);
      if sent.Ok? {
        CloseKeepsRecord(env, c, s3, m, sent.value, f);
        hide Close;
      }
    }
  }

  lemma CloseKeepsRecord(env: M.Env, c: Client, s: System, m: nat, p: Progress, f: Fates)
    requires env.partSize > 0
    ensures var (after, r) := Close(env, c, s, m, p, f);
            after.vault == Uploaded || after.disk == s.disk
  {
    hide M.Step;
  }

  lemma StartStrands(env: M.Env, c: Client, s: System, m: nat, f: Fates, initial: nat)
    requires env.partSize > 0 && Readable(c.rec) && SysInv(env, c, s, initial)
    requires s.vault == Owed && s.disk.None? && Plain(c.rec) != []
    requires c.meetingId == Some(m) && CanStart(c, s, f.declareAs)
    ensures var (after, r) := Open(env, c, s, m, Plain(c.rec), f);
            && (r.Ok? ==> after.disk.Some?)
            && (Stranded(c, after) <==> StartIsLost(env, |Plain(c.rec)|, f))
            && (r.Ok? ==> !StartIsLost(env, |Plain(c.rec)|, f))
  {
    assert Ours(c, s.log, m);
    assert OursOk(env, c, s.server, m, Plain(c.rec));
    var noted := Note(s, Starting(m));
    var e := M.Start(m, c.user, Declaration(env, c, Plain(c.rec)), f.startStore);
    AskEffect(env, noted, e, f.now, f.startCommits, f.start, initial);
    hide PartCountFor, SysInv, OursOk, M.Step, L.Inv, Ask;
  }

  /** A start whose request arrives takes effect exactly when it is accepted and committed. */
  lemma AskEffect(env: M.Env, s: System, e: M.Event, now: int, commits: bool, net: Net, initial: nat)
    requires env.partSize > 0 && L.Inv(s.server, initial) && e.Start?
    requires e.m in s.server.db.rows && s.server.db.rows[e.m].createdBy == e.caller.id
    requires s.server.db.rows[e.m].status == M.Created
    ensures var (after, r) := Ask(env, s, e, now, commits, net);
            var taken := PartCountFor(e.declared.size, env.partSize).Ok? && e.fate == Answers && commits;
            && after == s.(server := after.server) && e.m in after.server.db.rows
            && (r.Ok? <==> taken && net == Delivered) && (r.Ok? ==> r.value.Opened?)
            && (after.server.db.rows[e.m].status != M.Created <==> taken && net in {Delivered, AnswerLost, AnswerGarbled})
  {
    StartEffect(env, s.server, e, now, commits, initial);
    hide PartCountFor, L.Inv, M.Step;
  }

  /** A start takes effect exactly when it is accepted and committed. */
  lemma StartEffect(env: M.Env, a: M.Server, e: M.Event, now: int, commits: bool, initial: nat)
    requires env.partSize > 0 && L.Inv(a, initial) && e.Start?
    requires e.m in a.db.rows && a.db.rows[e.m].createdBy == e.caller.id && a.db.rows[e.m].status == M.Created
    ensures var o := M.Step(env, a, e, now, commits);
            && e.m in o.server.db.rows
            && (o.reply.Ok? <==> PartCountFor(e.declared.size, env.partSize).Ok? && e.fate == Answers && commits)
            && (o.server.db.rows[e.m].status != M.Created <==> o.reply.Ok?)
            && (o.reply.Ok? ==> o.reply.value.Opened?)
  {
    L.RowsAreUnique(a.db);
    hide PartCountFor, StartMultipart;
  }

  /** An attempt on a stranded recording is refused and changes nothing but the log. */
  lemma StrandedAttempt(env: M.Env, c: Client, s: System, f: Fates, initial: nat)
    requires env.partSize > 0 && Readable(c.rec) && SysInv(env, c, s, initial) && Stranded(c, s)
    ensures var (after, r) := Attempt(env, c, s, f);
            r.Err? && after == s.(log := after.log)
  {
    var m := c.meetingId.value;
    assert Ours(c, s.log, m);
    assert OursOk(env, c, s.server, m, Plain(c.rec));
    var e := M.Start(m, c.user, Declaration(env, c, Plain(c.rec)), f.startStore);
    StartRefused(env, s.server, e, f.now, f.startCommits);
    DamagedFits(c.rec, s.damaged, env.partSize);
    OpenByStart(env, c, s, m, Plain(c.rec), f);
    hide SysInv, OursOk, M.Step, Open, Send, Close, Plain, PartCountFor, Damaged, Readable;
  }

  lemma StrandedTry(env: M.Env, c: Client, s: System, f: Fates, initial: nat)
    requires env.partSize > 0 && Readable(c.rec) && SysInv(env, c, s, initial) && Stranded(c, s)
    ensures var after := Take(env, c, s, Try(f));
            SysInv(env, c, after, initial) && Stranded(c, after)
  {
    AttemptKeeps(env, c, s, f, initial);
    StrandedAttempt(env, c, s, f, initial);
    hide SysInv, Attempt;
  }

  lemma StrandedMeanwhile(env: M.Env, c: Client, s: System, e: M.Event, now: int, commits: bool, initial: nat)
    requires env.partSize > 0 && Readable(c.rec) && SysInv(env, c, s, initial) && Stranded(c, s)
    requires ForeignToUs(c, s.log, e)
    ensures var after := Take(env, c, s, Meanwhile(e, now, commits));
            SysInv(env, c, after, initial) && Stranded(c, after)
  {
    MeanwhileKeeps(env, c, s, e, now, commits, initial);
    assert Ours(c, s.log, c.meetingId.value);
    ForeignFrame(env, s.server, e, now, commits, c.meetingId.value, initial);
    hide SysInv, M.Step;
  }

  /** A record on disk for an upload the server no longer waits for: it was finished and the
      answer was lost, or the meeting was cancelled, or the store has let the upload go. */
  ghost predicate Stuck(s: System) {
    s.vault == Owed && s.disk.Some? && !Waiting(s)
  }

  lemma FinishOfNothing(env: M.Env, a: M.Server, e: M.Event, now: int, commits: bool)
    requires env.partSize > 0 && e.Finish? && e.uploadId !in a.store.uploads
    ensures M.Step(env, a, e, now, commits).server.store == a.store
  {
    hide M.Advance;
  }

  /** A resumed attempt goes on only with the very upload of the record. */
  lemma StuckWithoutUpload(env: M.Env, c: Client, s: System, f: Fates, initial: nat)
    requires env.partSize > 0 && Readable(c.rec) && SysInv(env, c, s, initial) && Stuck(s) && Plain(c.rec) != []
    ensures var m := s.disk.value.meeting;
            var (after, r) := Open(env, c, s, m, Plain(c.rec), f);
            && after == Note(s, Resuming(m))
            && (r.Ok? ==> r.value.1 == s.disk.value && s.disk.value.uploadId !in s.server.store.uploads)
  {
    var p := s.disk.value;
    RecordIsOurs(env, c, s, initial);
    ResumeOpens(env, c, s, p.meeting, f, initial);
    assert OursOk(env, c, s.server, p.meeting, Plain(c.rec));
    ResumedTicketFits(env, c, Note(s, Resuming(p.meeting)), p, Plain(c.rec), f.resume, f.resumeStore);
    hide SysInv, OursOk, L.Inv;
  }

  lemma StuckTry(env: M.Env, c: Client, s: System, f: Fates, initial: nat)
    requires env.partSize > 0 && Readable(c.rec) && SysInv(env, c, s, initial) && Stuck(s)
    ensures var (after, r) := Attempt(env, c, s, f);
            r.Err? && Stuck(after)
  {
    AttemptKeeps(env, c, s, f, initial);
    var p, data := s.disk.value, Plain(c.rec);
    DamagedFits(c.rec, s.damaged, env.partSize);
    hide Damaged;
    if data != [] && Sound(c, s) {
      StuckWithoutUpload(env, c, s, f, initial);
      ResumeOpens(env, c, s, p.meeting, f, initial);
      hide SysInv, M.Step, Open, Send, Close, HandedOver, Readable;
      var (s2, opening) := Open(env, c, s, p.meeting, data, f);
      if opening.Ok? {
        DecayKeeps(env, c, s2, f.lost, initial);
        StuckSend(env, c, Decay(s2, f.lost), opening.value.0, f, initial);
      }
    }
  }

  /** Sending to and finishing an upload the store does not have. */
  lemma StuckSend(env: M.Env, c: Client, s: System, ticket: Ticket, f: Fates, initial: nat)
    requires env.partSize > 0 && Readable(c.rec) && SysInv(env, c, s, initial) && s.vault == Owed
    requires s.disk.Some? && s.disk.value.uploadId !in s.server.store.uploads
    requires TicketFits(env, ticket, s.disk.value, Plain(c.rec)) && Plain(c.rec) != []
    ensures var p := s.disk.value;
            var (s3, sent) := Send(s, HandedOver(c, s, Max(ticket.partSize, 1)), ticket, p, 0, f);
            if sent.Err? then Stuck(s3)
            else
              var (after, r) := Close(env, c, s3, p.meeting, sent.value, f);
              r.Err? && Stuck(after)
  {
    var p, h := s.disk.value, HandedOver(c, s, Max(ticket.partSize, 1));
    DamagedFits(c.rec, s.damaged, env.partSize);
    RecordInOrder(env, c, s, initial);
    hide SysInv, M.Step, Send, Close;
    SendKeeps(env, c, s, h, ticket, p, 0, f, initial);
    SendOpensNothing(s, h, ticket, p, 0, f);
    var (s3, sent) := Send(s, h, ticket, p, 0, f);
    if sent.Ok? {
      CloseOfNothing(env, c, s3, p.meeting, sent.value, f);
    }
  }

  lemma CloseOfNothing(env: M.Env, c: Client, s: System, m: nat, p: Progress, f: Fates)
    requires env.partSize > 0 && p.uploadId !in s.server.store.uploads
    ensures var (after, r) := Close(env, c, s, m, p, f);
            r.Err? && after.vault == s.vault && after.disk == s.disk && after.server.store == s.server.store
  {
    var e := M.Finish(m, c.user, p.uploadId, p.confirmed, f.finishStore, f.deletion);
    FinishOfNothing(env, s.server, e, f.now, f.finishCommits);
    if M.Visible(s.server.db, m, c.user) {
      FinishOutcome(env, s.server, e, f.now, f.finishCommits);
      assert FinalizeOf(s.server, e, f.now).result.Err?;
    }
    hide M.Step;
  }

  lemma StuckMeanwhile(env: M.Env, c: Client, s: System, e: M.Event, now: int, commits: bool, initial: nat)
    requires env.partSize > 0 && Readable(c.rec) && SysInv(env, c, s, initial) && Stuck(s)
    requires ForeignToUs(c, s.log, e)
    ensures var after := Take(env, c, s, Meanwhile(e, now, commits));
            SysInv(env, c, after, initial) && Stuck(after)
  {
    var p := s.disk.value;
    MeanwhileKeeps(env, c, s, e, now, commits, initial);
    assert Ours(c, s.log, p.meeting);
    assert RecordOk(env, s.server, p, Plain(c.rec));
    ForeignFrame(env, s.server, e, now, commits, p.meeting, initial);
    hide SysInv, M.Step;
  }

  // ------------------------------------------------------------ and no way back

  /** Owed, and out of reach of every fault-free attempt: by one of the two conditions above, or
      because some of it can no longer be read. */
  ghost predicate OutOfReach(c: Client, s: System) {
    Stranded(c, s) || Stuck(s) || (s.vault == Owed && !Sound(c, s))
  }

  /** With nothing going wrong an attempt delivers the recording exactly when it is within
      reach, the store takes one of this size, and a meeting declared for it gets an
      identifier nobody used. */
  lemma DeliveredIffInReach(env: M.Env, c: Client, s: System, f: Fates, initial: nat)
    requires env.partSize > 0 && Readable(c.rec) && SysInv(env, c, s, initial) && SmoothFirst(f)
    requires s.vault == Owed && Plain(c.rec) != []
    ensures Attempt(env, c, s, f).1.Ok?
            <==> && !OutOfReach(c, s) && PartCountFor(|Plain(c.rec)|, env.partSize).Ok?
                 && (s.disk.None? && c.meetingId.None? ==> f.declareAs !in s.server.db.rows)
  {
    if s.disk.Some? {
      SmoothAttemptSucceedsIff(env, c, s, f, initial);
      if Waiting(s) {
        WaitingFits(env, c, s, initial);
      }
    } else {
      SmoothFirstAttemptSucceedsIff(env, c, s, f, initial);
      if c.meetingId.Some? {
        assert Ours(c, s.log, c.meetingId.value);
        assert OursOk(env, c, s.server, c.meetingId.value, Plain(c.rec));
      }
    }
    hide SysInv, Attempt, PartCountFor;
  }

  lemma WaitingFits(env: M.Env, c: Client, s: System, initial: nat)
    requires env.partSize > 0 && Readable(c.rec) && SysInv(env, c, s, initial) && Waiting(s)
    ensures PartCountFor(|Plain(c.rec)|, env.partSize).Ok?
  {
    var p := s.disk.value;
    assert OursOk(env, c, s.server, p.meeting, Plain(c.rec));
    assert L.RowOk(s.server.db.org.id, p.meeting, s.server.db.rows[p.meeting],
                   s.server.db.transcripts[p.meeting], s.server.db.reports[p.meeting]);
  }

  lemma OutOfReachMove(env: M.Env, c: Client, s: System, move: Move, initial: nat)
    requires env.partSize > 0 && Readable(c.rec) && SysInv(env, c, s, initial) && OutOfReach(c, s)
    requires move.Meanwhile? ==> ForeignToUs(c, s.log, move.event)
    ensures var after := Take(env, c, s, move);
            SysInv(env, c, after, initial) && OutOfReach(c, after)
  {
    match move
    case Try(f) =>
      if !Sound(c, s) {
        HarmedAttempt(env, c, s, f);
      } else if Stuck(s) {
        AttemptKeeps(env, c, s, f, initial);
        StuckTry(env, c, s, f, initial);
        hide SysInv, Attempt, Waiting;
      } else {
        StrandedTry(env, c, s, f, initial);
      }
    case Decays(lost) => DecayKeeps(env, c, s, lost, initial);
    case Meanwhile(e, now, commits) =>
      MeanwhileKeeps(env, c, s, e, now, commits, initial);
      if !Sound(c, s) {
        hide SysInv, M.Step;
      } else if Stuck(s) {
        StuckMeanwhile(env, c, s, e, now, commits, initial);
      } else {
        StrandedMeanwhile(env, c, s, e, now, commits, initial);
      }
  }

  lemma HarmedIsRefused(env: M.Env, c: Client, s: System, f: Fates)
    requires env.partSize > 0 && Readable(c.rec) && !Sound(c, s)
    ensures Attempt(env, c, s, f).1.Err?
  {
    HarmedAttempt(env, c, s, f);
  }

  /** Once out of reach, always: whatever the server does meanwhile and however often the
      upload is attempted, with whatever luck, the recording is never delivered. */
  lemma {:induction false} OutOfReachForGood(env: M.Env, c: Client, s: System, moves: seq<Move>, next: Fates, initial: nat)
    requires env.partSize > 0 && Readable(c.rec) && SysInv(env, c, s, initial) && OutOfReach(c, s)
    requires Fair(env, c, s, moves)
    ensures var t := RunMoves(env, c, s, moves);
            SysInv(env, c, t, initial) && OutOfReach(c, t) && Attempt(env, c, t, next).1.Err?
    decreases |moves|
  {
    hide SysInv, Take, Attempt, Stranded, Stuck, Sound;
    var t := RunMoves(env, c, s, moves);
    if moves != [] {
      OutOfReachForGood(env, c, s, moves[..|moves| - 1], next, initial);
      OutOfReachMove(env, c, RunMoves(env, c, s, moves[..|moves| - 1]), moves[|moves| - 1], initial);
    }
    if !Sound(c, t) {
      HarmedIsRefused(env, c, t, next);
    } else if Stuck(t) {
      StuckTry(env, c, t, next, initial);
    } else {
      StrandedAttempt(env, c, t, next, initial);
    }
  }
}
