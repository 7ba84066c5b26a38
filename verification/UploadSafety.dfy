/** Safety of the resumable upload over every run: what reaches the store is the recording,
    byte for byte, and nothing is declared, started or sent twice that should not be. */
module UploadSafety {
  import opened Prelude
  import opened Assembly
  import opened ObjectStore
  import opened Uploads
  import opened Isolation
  import M = Meetings
  import L = Lifecycle

  // ------------------------------------------------------------ the invariant

  /** Meetings this client has declared, or was given, for this recording. */
  ghost predicate Ours(c: Client, log: seq<Call>, m: nat) {
    c.meetingId == Some(m) || Declaring(Some(m)) in log
  }

  /** Every part under this key is the slice with its number. */
  ghost predicate PartsAreSlices(store: StoreState, key: Key, pieces: seq<Bytes>) {
    forall u, n :: u in store.uploads && store.uploads[u].key == key && n in store.uploads[u].parts ==>
      1 <= n <= |pieces| && store.uploads[u].parts[n].bytes == pieces[n - 1]
  }

  /** The row counts the whole seconds that were recorded, and those spent paused. */
  predicate Timed(c: Client, row: M.Row) {
    row.duration == c.recordedMs / 1000 && row.paused == c.pausedMs / 1000
  }

  /** What the server knows and holds of one of our meetings. */
  ghost predicate OursOk(env: M.Env, c: Client, server: M.Server, m: nat, data: Bytes)
    requires env.partSize > 0
  {
    && m in server.db.rows
    && server.db.rows[m].createdBy == c.user.id
    && (server.db.rows[m].status == M.Uploading ==> Timed(c, server.db.rows[m]))
    && (server.db.rows[m].audioKey.Some? ==>
          && server.db.rows[m].audioSha == Some(env.hash(data))
          && server.db.rows[m].audioBytes == Some(|data|)
          && PartCountFor(|data|, env.partSize).Ok?)
    && StoredOk(env, server.store, AudioKey(server.db.org.id, m), data)
  }

  ghost predicate StoredOk(env: M.Env, store: StoreState, key: Key, data: Bytes)
    requires env.partSize > 0
  {
    && (key in store.objects ==> store.objects[key] == data)
    && PartsAreSlices(store, key, Cut(data, env.partSize))
  }

  /** Every confirmed part is still in the upload, under the tag that was confirmed. */
  ghost predicate HeldBy(parts: map<nat, Part>, confirmed: seq<Confirmed>) {
    forall i :: 0 <= i < |confirmed| ==>
      confirmed[i].number in parts && parts[confirmed[i].number].etag == confirmed[i].etag
  }

  /** A progress record against the server and the store. */
  ghost predicate RecordOk(env: M.Env, server: M.Server, p: Progress, data: Bytes)
    requires env.partSize > 0
  {
    && p.meeting in server.db.rows
    && p.sha == env.hash(data) && p.size == |data|
    && InOrder(p.confirmed) && |p.confirmed| <= |Cut(data, env.partSize)|
    && p.uploadId < server.store.nextUpload
    && server.db.rows[p.meeting].uploadId in {None, Some(p.uploadId)}
    && (p.uploadId in server.store.uploads ==>
          && server.db.rows[p.meeting].uploadId == Some(p.uploadId)
          && server.store.uploads[p.uploadId].key == AudioKey(server.db.org.id, p.meeting)
          && HeldBy(server.store.uploads[p.uploadId].parts, p.confirmed))
  }

  /** The newer record continues the older one. */
  predicate Continues(older: Progress, newer: Progress) {
    older.meeting == newer.meeting && older.uploadId == newer.uploadId && older.confirmed <= newer.confirmed
  }

  /** After a record is saved nothing is declared or started, and none of its parts is sent. */
  predicate Follows(earlier: Call, later: Call) {
    earlier.Saved? ==>
      && !later.Declaring? && !later.Starting?
      && !(later.Sending? && later.uploadId == earlier.record.uploadId && Holds(earlier.record, later.number))
  }

  ghost predicate LogOk(c: Client, s: System) {
    && (forall i, j :: 0 <= i < j < |s.log| ==> Follows(s.log[i], s.log[j]))
    && (s.vault == Owed ==>
          forall i :: 0 <= i < |s.log| && s.log[i].Saved? ==>
            s.disk.Some? && Continues(s.log[i].record, s.disk.value))
    && (s.vault == Uploaded ==> exists m :: FinishAnswered(m) in s.log)
  }

  ghost predicate SysInv(env: M.Env, c: Client, s: System, initial: nat)
    requires env.partSize > 0 && Readable(c.rec)
  {
    var data := Plain(c.rec);
    && L.Inv(s.server, initial)
    && (forall m :: Ours(c, s.log, m) ==> OursOk(env, c, s.server, m, data))
    && (s.disk.Some? ==> Ours(c, s.log, s.disk.value.meeting) && RecordOk(env, s.server, s.disk.value, data))
    && LogOk(c, s)
  }

  // ------------------------------------------------------------ the server moves, nothing of ours is touched

  lemma FrameKeepsOurs(env: M.Env, c: Client, a: M.Server, b: M.Server, m: nat, data: Bytes)
    requires env.partSize > 0 && OursOk(env, c, a, m, data) && Frame(a, b, m)
    ensures OursOk(env, c, b, m, data)
  {
  }

  lemma FrameKeepsRecord(env: M.Env, a: M.Server, b: M.Server, p: Progress, data: Bytes)
    requires env.partSize > 0 && RecordOk(env, a, p, data) && Frame(a, b, p.meeting)
    ensures RecordOk(env, b, p, data)
  {
    if p.uploadId in b.store.uploads {
      assert p.uploadId in a.store.uploads;
    }
  }

  lemma MeanwhileKeeps(env: M.Env, c: Client, s: System, e: M.Event, now: int, commits: bool, initial: nat)
    requires env.partSize > 0 && Readable(c.rec) && SysInv(env, c, s, initial)
    requires ForeignToUs(c, s.log, e)
    ensures SysInv(env, c, s.(server := M.Step(env, s.server, e, now, commits).server), initial)
  {
    var data := Plain(c.rec);
    var after := M.Step(env, s.server, e, now, commits).server;
    L.StepKeeps(env, s.server, e, now, commits, initial);
    forall m | Ours(c, s.log, m)
      ensures Frame(s.server, after, m) && OursOk(env, c, after, m, data)
    {
      ForeignFrame(env, s.server, e, now, commits, m, initial);
      FrameKeepsOurs(env, c, s.server, after, m, data);
    }
    if s.disk.Some? {
      FrameKeepsRecord(env, s.server, after, s.disk.value, data);
    }
  }

  // ------------------------------------------------------------ notes in the log

  lemma NoteKeeps(c: Client, s: System, call: Call)
    requires LogOk(c, s) && s.vault == Owed && !call.Saved?
    requires forall i :: 0 <= i < |s.log| ==> Follows(s.log[i], call)
    ensures LogOk(c, Note(s, call))
  {
  }

  lemma NoteKeepsOurs(c: Client, log: seq<Call>, call: Call)
    requires call.Declaring? ==> call.created.None?
    ensures forall m :: Ours(c, log + [call], m) <==> Ours(c, log, m)
  {
    forall m
      ensures Ours(c, log + [call], m) <==> Ours(c, log, m)
    {
      assert Declaring(Some(m)) in log + [call] <==> Declaring(Some(m)) in log || Declaring(Some(m)) == call;
    }
  }

  /** Writing down a record that continues the one on disk. */
  lemma WriteKeeps(c: Client, s: System, p: Progress)
    requires LogOk(c, s) && s.vault == Owed
    requires s.disk.Some? ==> Continues(s.disk.value, p)
    ensures LogOk(c, Write(s, p))
  {
    var after := Write(s, p);
    forall i | 0 <= i < |after.log| && after.log[i].Saved?
      ensures Continues(after.log[i].record, p)
    {
      if i < |s.log| {
        assert Continues(s.log[i].record, s.disk.value);
      }
    }
  }

  // ------------------------------------------------------------ identify

  lemma IdentifyKeeps(env: M.Env, c: Client, s: System, f: Fates, initial: nat)
    requires env.partSize > 0 && Readable(c.rec) && SysInv(env, c, s, initial) && s.vault == Owed
    ensures var (after, who) := Identify(env, c, s, f);
            && SysInv(env, c, after, initial) && after.vault == Owed && after.disk == s.disk
            && (who.Ok? ==> Ours(c, after.log, who.value))
            && (s.disk.Some? ==> after == s && who == Ok(s.disk.value.meeting))
  {
    if s.disk.None? && c.meetingId.None? {
      DeclareKeeps(env, c, s, f, initial);
    }
  }

  lemma AskOnlyAsks(env: M.Env, s: System, e: M.Event, now: int, commits: bool, net: Net)
    requires env.partSize > 0
    ensures var (after, r) := Ask(env, s, e, now, commits, net);
            after == s.(server := after.server)
  {
    hide M.Step;
  }

  lemma DeclareKeeps(env: M.Env, c: Client, s: System, f: Fates, initial: nat)
    requires env.partSize > 0 && Readable(c.rec) && SysInv(env, c, s, initial) && s.vault == Owed
    requires s.disk.None? && c.meetingId.None?
    ensures var (after, who) := Identify(env, c, s, f);
            && SysInv(env, c, after, initial) && after.vault == Owed && after.disk == s.disk
            && (who.Ok? ==> Ours(c, after.log, who.value))
  {
    DeclareLogs(env, c, s, f);
    DeclareServer(env, c, s, f, initial);
    hide Identify, M.Step, L.Inv, LogOk, OursOk, RecordOk, Plain;
  }

  lemma DeclareLogs(env: M.Env, c: Client, s: System, f: Fates)
    requires env.partSize > 0 && LogOk(c, s) && s.vault == Owed && s.disk.None? && c.meetingId.None?
    ensures var (after, who) := Identify(env, c, s, f);
            && LogOk(c, after) && after.vault == s.vault && after.disk == s.disk
            && (who.Ok? ==> Ours(c, after.log, who.value))
  {
    var e := M.Declare(f.declareAs, c.user, false);
    DeclareCreates(env, s, e, f.now, f.declareCommits, f.declare);
    AskOnlyAsks(env, s, e, f.now, f.declareCommits, f.declare);
    hide M.Step, LogOk, Ask;
    var asked := Ask(env, s, e, f.now, f.declareCommits, f.declare).0;
    var took := f.declareAs !in s.server.db.rows && f.declareAs in asked.server.db.rows;
    var call := Declaring(if took then Some(f.declareAs) else None);
    LogElsewhere(c, s, asked.server);
    NoteKeeps(c, asked, call);
    LastCall(s.log, call);
  }

  lemma DeclareServer(env: M.Env, c: Client, s: System, f: Fates, initial: nat)
    requires env.partSize > 0 && Readable(c.rec) && SysInv(env, c, s, initial)
    requires s.disk.None? && c.meetingId.None?
    ensures var after := Identify(env, c, s, f).0;
            && L.Inv(after.server, initial)
            && forall m :: Ours(c, after.log, m) ==> OursOk(env, c, after.server, m, Plain(c.rec))
  {
    hide *;
    var e := M.Declare(f.declareAs, c.user, false);
    var after := Identify(env, c, s, f).0;
    var took := f.declareAs !in s.server.db.rows && f.declareAs in after.server.db.rows;
    var call := Declaring(if took then Some(f.declareAs) else None);
    InvParts(env, c, s, initial);
    IdentifyDeclares(env, c, s, f);
    L.StepKeeps(env, s.server, e, f.now, f.declareCommits, initial);
    if f.declare == RequestLost || f.declare == TurnedAway {
      NoteKeepsOurs(c, s.log, call);
    } else {
      OursAfterDeclare(env, c, s, e, f.now, f.declareCommits, took, initial);
    }
  }

  lemma InvParts(env: M.Env, c: Client, s: System, initial: nat)
    requires env.partSize > 0 && Readable(c.rec) && SysInv(env, c, s, initial)
    ensures L.Inv(s.server, initial)
    ensures forall m :: Ours(c, s.log, m) ==> OursOk(env, c, s.server, m, Plain(c.rec))
  {
  }

  lemma IdentifyDeclares(env: M.Env, c: Client, s: System, f: Fates)
    requires env.partSize > 0 && s.disk.None? && c.meetingId.None?
    ensures var after := Identify(env, c, s, f).0;
            var e := M.Declare(f.declareAs, c.user, false);
            var took := f.declareAs !in s.server.db.rows && f.declareAs in after.server.db.rows;
            && after.log == s.log + [Declaring(if took then Some(f.declareAs) else None)]
            && after.server == if f.declare == RequestLost || f.declare == TurnedAway then s.server
                               else M.Step(env, s.server, e, f.now, f.declareCommits).server
  {
    hide M.Step;
  }

  lemma LogElsewhere(c: Client, s: System, server: M.Server)
    requires LogOk(c, s)
    ensures LogOk(c, s.(server := server))
  {
  }

  lemma LastCall(log: seq<Call>, call: Call)
    ensures call in log + [call]
  {
    assert (log + [call])[|log|] == call;
  }

  /** An answered declaration made the row. */
  lemma DeclareCreates(env: M.Env, s: System, e: M.Event, now: int, commits: bool, net: Net)
    requires env.partSize > 0 && e.Declare?
    ensures var (after, r) := Ask(env, s, e, now, commits, net);
            r.Ok? ==> e.m !in s.server.db.rows && e.m in after.server.db.rows
  {
  }

  lemma OursAfterDeclare(env: M.Env, c: Client, s: System, e: M.Event, now: int, commits: bool, took: bool, initial: nat)
    requires env.partSize > 0 && Readable(c.rec) && SysInv(env, c, s, initial)
    requires e.Declare? && e.caller == c.user && c.meetingId.None?
    requires took ==> e.m !in s.server.db.rows && e.m in M.Step(env, s.server, e, now, commits).server.db.rows
    ensures forall m :: Ours(c, s.log + [Declaring(if took then Some(e.m) else None)], m) ==>
              OursOk(env, c, M.Step(env, s.server, e, now, commits).server, m, Plain(c.rec))
  {
    var call := Declaring(if took then Some(e.m) else None);
    forall m | Ours(c, s.log + [call], m)
      ensures OursOk(env, c, M.Step(env, s.server, e, now, commits).server, m, Plain(c.rec))
    {
      if Declaring(Some(m)) in s.log {
        DeclareElsewhere(env, c, s, e, now, commits, m, Plain(c.rec));
      } else {
        assert Declaring(Some(m)) == call;
        NewMeetingOk(env, c, s.server, e, now, commits, Plain(c.rec), initial);
      }
    }
  }

  lemma DeclareElsewhere(env: M.Env, c: Client, s: System, e: M.Event, now: int, commits: bool, m: nat, data: Bytes)
    requires env.partSize > 0 && e.Declare? && OursOk(env, c, s.server, m, data)
    ensures OursOk(env, c, M.Step(env, s.server, e, now, commits).server, m, data)
  {
  }

  lemma NewMeetingOk(env: M.Env, c: Client, a: M.Server, e: M.Event, now: int, commits: bool, data: Bytes, initial: nat)
    requires env.partSize > 0 && L.Inv(a, initial) && e.Declare? && e.caller == c.user
    requires e.m !in a.db.rows
    ensures var b := M.Step(env, a, e, now, commits).server;
            e.m in b.db.rows ==> OursOk(env, c, b, e.m, data)
  {
    var b := M.Step(env, a, e, now, commits).server;
    assert b.store == a.store;
    assert AudioKey(a.db.org.id, e.m) !in a.store.objects;
    assert forall u :: u in a.store.uploads ==> a.store.uploads[u].key != AudioKey(a.db.org.id, e.m);
  }

  // ------------------------------------------------------------ open

  /** The ticket an attempt goes on with: one slot per piece of this recording. */
  ghost predicate TicketFits(env: M.Env, ticket: Ticket, p: Progress, data: Bytes)
    requires env.partSize > 0
  {
    ticket.uploadId == p.uploadId && ticket.partSize == env.partSize && ticket.count == |Cut(data, env.partSize)|
  }

  /** Resuming names the upload the record is about, so nothing confirmed is ever dropped. */
  lemma ResumedTicketFits(env: M.Env, c: Client, s: System, p: Progress, data: Bytes, net: Net, fate: StoreFate)
    requires env.partSize > 0 && OursOk(env, c, s.server, p.meeting, data) && RecordOk(env, s.server, p, data)
    requires data != []
    ensures var r := AskResume(env, s, c, p.meeting, net, fate);
            r.Ok? ==> TicketFits(env, r.value, p, data)
  {
    SlotsMatchParts(data, env.partSize);
  }

  /** What the service asks of the row and of the store. */
  lemma ServiceOutcome(env: M.Env, row: M.Row, caller: M.User, f: M.Declared, now: int, store: StoreState, fate: StoreFate)
    requires env.partSize > 0
    ensures var r := M.StartUpload(env, M.Draft(row, []), caller, f, now, store, fate);
            var key := AudioKey(row.organization, row.id);
            && (r.store == store || r.store == StartMultipart(store, key))
            && (r.result.Ok? ==>
                  && r.store == StartMultipart(store, key)
                  && PartCountFor(f.size, env.partSize).Ok?
                  && r.result.value.1 == Ticket(store.nextUpload, env.partSize, PartCountFor(f.size, env.partSize).value)
                  && r.result.value.0.row
                     == row.(status := M.Uploading, uploadId := Some(store.nextUpload), audioKey := Some(key),
                             audioSha := Some(f.sha), audioBytes := Some(f.size),
                             duration := f.duration, paused := f.paused))
  {
    hide PartCountFor, StartMultipart, M.AllowedFrom;
  }

  /** What a start does: nothing to the rows unless it is answered, and then this. */
  lemma StartOutcome(env: M.Env, a: M.Server, e: M.Event, now: int, commits: bool, initial: nat)
    requires env.partSize > 0 && L.Inv(a, initial) && e.Start?
    ensures var o := M.Step(env, a, e, now, commits);
            var begun := StartMultipart(a.store, AudioKey(a.db.org.id, e.m));
            && o.server.db.org.id == a.db.org.id
            && (o.reply.Err? ==> o.server.db == a.db && (o.server.store == a.store || o.server.store == begun))
            && (o.reply.Ok? ==>
                  && e.m in a.db.rows && o.server.store == begun
                  && PartCountFor(e.declared.size, env.partSize).Ok?
                  && o.reply.value == M.Opened(Ticket(a.store.nextUpload, env.partSize,
                                                      PartCountFor(e.declared.size, env.partSize).value))
                  && o.server.db.rows == a.db.rows[e.m := StartedRow(a, e)])
  {
    hide PartCountFor, M.Unique, StartMultipart, M.StartUpload;
    if M.Visible(a.db, e.m, e.caller) {
      assert L.RowOk(a.db.org.id, e.m, a.db.rows[e.m], a.db.transcripts[e.m], a.db.reports[e.m]);
      ServiceOutcome(env, a.db.rows[e.m], e.caller, e.declared, now, a.store, e.fate);
    }
    hide L.Inv, L.RowOk;
  }

  function StartedRow(a: M.Server, e: M.Event): M.Row
    requires e.Start? && e.m in a.db.rows
  {
    a.db.rows[e.m].(status := M.Uploading, uploadId := Some(a.store.nextUpload),
                    audioKey := Some(AudioKey(a.db.org.id, e.m)),
                    audioSha := Some(e.declared.sha), audioBytes := Some(e.declared.size),
                    duration := e.declared.duration, paused := e.declared.paused)
  }

  lemma OwnStart(env: M.Env, c: Client, a: M.Server, e: M.Event, now: int, commits: bool, data: Bytes, initial: nat)
    requires env.partSize > 0 && L.Inv(a, initial) && e.Start? && e.caller == c.user
    requires e.declared == Declaration(env, c, data) && data != []
    requires OursOk(env, c, a, e.m, data)
    ensures var o := M.Step(env, a, e, now, commits);
            && OursOk(env, c, o.server, e.m, data)
            && (o.reply.Ok? ==>
                  && o.reply.value.Opened?
                  && var p := Progress(e.m, o.reply.value.ticket.uploadId, |data|, env.hash(data), []);
                     TicketFits(env, o.reply.value.ticket, p, data) && RecordOk(env, o.server, p, data))
  {
    SlotsMatchParts(data, env.partSize);
    StartOutcome(env, a, e, now, commits, initial);
    OpenedStaysOk(env, a.store, AudioKey(a.db.org.id, e.m), data);
    hide M.Step, L.Inv, StoredOk, PartCountFor, Cut;
  }

  lemma OpenedStaysOk(env: M.Env, store: StoreState, key: Key, data: Bytes)
    requires env.partSize > 0 && StoredOk(env, store, key, data)
    ensures StoredOk(env, StartMultipart(store, key), key, data)
  {
  }

  lemma StartKeeps(env: M.Env, c: Client, s: System, e: M.Event, now: int, commits: bool, net: Net, initial: nat)
    requires env.partSize > 0 && Readable(c.rec) && SysInv(env, c, s, initial) && s.vault == Owed && s.disk.None?
    requires e.Start? && Ours(c, s.log, e.m) && e.caller == c.user && Plain(c.rec) != []
    requires e.declared == Declaration(env, c, Plain(c.rec))
    ensures var (after, reply) := Ask(env, Note(s, Starting(e.m)), e, now, commits, net);
            && SysInv(env, c, after, initial) && after.vault == Owed && after.disk.None?
            && (reply.Ok? ==>
                  && reply.value.Opened?
                  && var p := Progress(e.m, reply.value.ticket.uploadId, |Plain(c.rec)|, env.hash(Plain(c.rec)), []);
                     TicketFits(env, reply.value.ticket, p, Plain(c.rec)) && RecordOk(env, after.server, p, Plain(c.rec)))
  {
    hide L.Inv, OursOk, M.Step, RecordOk, TicketFits, Plain;
    NoteKeeps(c, s, Starting(e.m));
    NoteKeepsOurs(c, s.log, Starting(e.m));
    L.StepKeeps(env, s.server, e, now, commits, initial);
    OwnStart(env, c, s.server, e, now, commits, Plain(c.rec), initial);
    OthersKeep(env, c, s, e, now, commits, initial);
  }

  /** A request about one of our meetings leaves our other meetings alone. */
  lemma OthersKeep(env: M.Env, c: Client, s: System, e: M.Event, now: int, commits: bool, initial: nat)
    requires env.partSize > 0 && Readable(c.rec) && SysInv(env, c, s, initial)
    requires L.Request(e)
    ensures forall m :: Ours(c, s.log, m) && m != e.m ==>
              OursOk(env, c, M.Step(env, s.server, e, now, commits).server, m, Plain(c.rec))
  {
    forall m | Ours(c, s.log, m) && m != e.m
      ensures OursOk(env, c, M.Step(env, s.server, e, now, commits).server, m, Plain(c.rec))
    {
      OtherRequest(env, s.server, e, now, commits, m, initial);
      FrameKeepsOurs(env, c, s.server, M.Step(env, s.server, e, now, commits).server, m, Plain(c.rec));
    }
  }

  /** What `Open` leaves behind: the invariant, and a record on disk that fits the ticket. */
  ghost predicate Opened(env: M.Env, c: Client, after: System, r: Result<(Ticket, Progress), UploadError>, m: nat, initial: nat)
    requires env.partSize > 0 && Readable(c.rec)
  {
    && SysInv(env, c, after, initial) && after.vault == Owed
    && (r.Ok? ==>
          && TicketFits(env, r.value.0, r.value.1, Plain(c.rec))
          && after.disk == Some(r.value.1) && r.value.1.meeting == m)
    && (r.Err? ==> r.error.Api? || r.error.Io?)
  }

  lemma ResumeOpens(env: M.Env, c: Client, s: System, m: nat, f: Fates, initial: nat)
    requires env.partSize > 0 && Readable(c.rec) && SysInv(env, c, s, initial) && s.vault == Owed
    requires Plain(c.rec) != [] && s.disk.Some? && s.disk.value.meeting == m
    ensures var (after, r) := Open(env, c, s, m, Plain(c.rec), f);
            Opened(env, c, after, r, m, initial) && after == Note(s, Resuming(m))
  {
    NoteKeeps(c, s, Resuming(m));
    NoteKeepsOurs(c, s.log, Resuming(m));
    ResumedTicketFits(env, c, Note(s, Resuming(m)), s.disk.value, Plain(c.rec), f.resume, f.resumeStore);
    hide AskResume, L.Inv, OursOk, RecordOk, LogOk, Plain, Cut;
  }

  /** Opening without a record: the start's answer, and a record if it can be written. */
  lemma OpenByStart(env: M.Env, c: Client, s: System, m: nat, data: Bytes, f: Fates)
    requires env.partSize > 0 && s.disk.None?
    ensures var e := M.Start(m, c.user, Declaration(env, c, data), f.startStore);
            var (asked, reply) := Ask(env, Note(s, Starting(m)), e, f.now, f.startCommits, f.start);
            var (after, r) := Open(env, c, s, m, data, f);
            if reply.Err? then after == asked && r == Err(Api(reply.error))
            else if !reply.value.Opened? then after == asked && r == Err(Api(Protocol))
            else if !f.saveFresh then after == asked && r == Err(Io)
            else
              var p := Progress(m, reply.value.ticket.uploadId, |data|, env.hash(data), []);
              after == Write(asked, p) && r == Ok((reply.value.ticket, p))
  {
    hide Ask;
  }

  lemma StartOpens(env: M.Env, c: Client, s: System, m: nat, f: Fates, initial: nat)
    requires env.partSize > 0 && Readable(c.rec) && SysInv(env, c, s, initial) && s.vault == Owed
    requires Plain(c.rec) != [] && Ours(c, s.log, m) && s.disk.None?
    ensures var (after, r) := Open(env, c, s, m, Plain(c.rec), f);
            Opened(env, c, after, r, m, initial)
  {
    hide SysInv, M.Step, RecordOk, TicketFits, Ours, Plain, Open, Ask;
    var data := Plain(c.rec);
    var e := M.Start(m, c.user, Declaration(env, c, data), f.startStore);
    OpenByStart(env, c, s, m, data, f);
    StartKeeps(env, c, s, e, f.now, f.startCommits, f.start, initial);
    var (after, reply) := Ask(env, Note(s, Starting(m)), e, f.now, f.startCommits, f.start);
    if reply.Ok? && f.saveFresh {
      NoteKeepsOurs(c, s.log, Starting(m));
      AskOnlyAsks(env, Note(s, Starting(m)), e, f.now, f.startCommits, f.start);
      var p := Progress(m, reply.value.ticket.uploadId, |data|, env.hash(data), []);
      RecordKeeps(env, c, after, p, initial);
    }
  }

  lemma OpenKeeps(env: M.Env, c: Client, s: System, m: nat, f: Fates, initial: nat)
    requires env.partSize > 0 && Readable(c.rec) && SysInv(env, c, s, initial) && s.vault == Owed
    requires Plain(c.rec) != [] && Ours(c, s.log, m) && (s.disk.Some? ==> s.disk.value.meeting == m)
    ensures var (after, r) := Open(env, c, s, m, Plain(c.rec), f);
            Opened(env, c, after, r, m, initial)
  {
    if s.disk.Some? {
      ResumeOpens(env, c, s, m, f, initial);
    } else {
      StartOpens(env, c, s, m, f, initial);
    }
  }

  /** Saving a record that is true. */
  lemma RecordKeeps(env: M.Env, c: Client, s: System, p: Progress, initial: nat)
    requires env.partSize > 0 && Readable(c.rec) && SysInv(env, c, s, initial) && s.vault == Owed
    requires Ours(c, s.log, p.meeting) && RecordOk(env, s.server, p, Plain(c.rec))
    requires s.disk.Some? ==> Continues(s.disk.value, p)
    ensures SysInv(env, c, Write(s, p), initial)
  {
    WriteKeeps(c, s, p);
    NoteKeepsOurs(c, s.log, Saved(p));
  }

  // ------------------------------------------------------------ send

  lemma HoldsPrefix(p: Progress, n: nat)
    requires InOrder(p.confirmed)
    ensures Holds(p, n) <==> 1 <= n <= |p.confirmed|
  {
    if 1 <= n <= |p.confirmed| {
      assert p.confirmed[n - 1].number == n;
    }
  }

  /** One part, whatever becomes of the call. */
  lemma SendPartKeeps(env: M.Env, c: Client, s: System, p: Progress, net: Net, initial: nat)
    requires env.partSize > 0 && Readable(c.rec) && SysInv(env, c, s, initial) && s.vault == Owed
    requires s.disk == Some(p) && |p.confirmed| < |Cut(Plain(c.rec), env.partSize)|
    ensures var k := |p.confirmed|;
            var (after, tag) := SendPart(s, p.uploadId, k + 1, Cut(Plain(c.rec), env.partSize)[k], net);
            && SysInv(env, c, after, initial) && after.vault == Owed && after.disk == s.disk
            && (tag.Ok? ==> RecordOk(env, after.server, Accept(p, Confirmed(k + 1, tag.value)), Plain(c.rec)))
  {
    var data := Plain(c.rec);
    var k, pieces := |p.confirmed|, Cut(data, env.partSize);
    var call := Sending(p.uploadId, k + 1);
    forall i | 0 <= i < |s.log|
      ensures Follows(s.log[i], call)
    {
      if s.log[i].Saved? {
        assert Continues(s.log[i].record, p);
        PrefixHoldsLess(s.log[i].record, p, k + 1);
      }
    }
    NoteKeeps(c, s, call);
    NoteKeepsOurs(c, s.log, call);
    HoldsPrefix(p, k + 1);
    LogElsewhere(c, Note(s, call), SendPart(s, p.uploadId, k + 1, pieces[k], net).0.server);
    SendPartCases(s, p.uploadId, k + 1, pieces[k], net);
    hide L.Inv, OursOk, Ours, Plain, Cut, LogOk, Follows, SendPart, PutPart;
    if p.uploadId in s.server.store.uploads && net != RequestLost {
      PutKeepsServer(env, c, s, p, k, initial);
      PutKeepsRecord(env, s.server, p, k, data);
    }
  }

  /** The store takes the part, or nothing but the log changes. */
  lemma SendPartCases(s: System, uploadId: nat, number: nat, bytes: Bytes, net: Net)
    ensures var (after, tag) := SendPart(s, uploadId, number, bytes, net);
            var noted := Note(s, Sending(uploadId, number));
            || (after == noted && tag.Err?)
            || (uploadId in s.server.store.uploads && net != RequestLost
                && PutPart(s.server.store, uploadId, number, bytes).Some?
                && after == noted.(server := M.Server(s.server.db, PutPart(s.server.store, uploadId, number, bytes).value))
                && (tag.Ok? ==> tag.value == s.server.store.nextTag))
  {
  }

  lemma PrefixHoldsLess(older: Progress, newer: Progress, n: nat)
    requires Continues(older, newer) && InOrder(newer.confirmed) && n > |newer.confirmed|
    ensures !Holds(older, n)
  {
    forall i | 0 <= i < |older.confirmed|
      ensures older.confirmed[i].number != n
    {
      assert older.confirmed[i] == newer.confirmed[i];
    }
  }

  lemma PutKeepsServer(env: M.Env, c: Client, s: System, p: Progress, k: nat, initial: nat)
    requires env.partSize > 0 && Readable(c.rec) && SysInv(env, c, s, initial) && s.disk == Some(p)
    requires k < |Cut(Plain(c.rec), env.partSize)| && p.uploadId in s.server.store.uploads
    ensures var store := PutPart(s.server.store, p.uploadId, k + 1, Cut(Plain(c.rec), env.partSize)[k]);
            var after := M.Server(s.server.db, store.value);
            && L.Inv(after, initial)
            && (forall m :: Ours(c, s.log, m) ==> OursOk(env, c, after, m, Plain(c.rec)))
  {
    PutKeepsInv(env, c, s, p, k, initial);
    hide L.Inv, M.Step;
    var after := M.Server(s.server.db, PutPart(s.server.store, p.uploadId, k + 1, Cut(Plain(c.rec), env.partSize)[k]).value);
    forall m | Ours(c, s.log, m)
      ensures OursOk(env, c, after, m, Plain(c.rec))
    {
      PutStaysOk(env, s.server.store, AudioKey(s.server.db.org.id, m), p.uploadId, k, Plain(c.rec));
    }
  }

  lemma PutKeepsInv(env: M.Env, c: Client, s: System, p: Progress, k: nat, initial: nat)
    requires env.partSize > 0 && Readable(c.rec) && SysInv(env, c, s, initial) && s.disk == Some(p)
    requires k < |Cut(Plain(c.rec), env.partSize)| && p.uploadId in s.server.store.uploads
    ensures var store := PutPart(s.server.store, p.uploadId, k + 1, Cut(Plain(c.rec), env.partSize)[k]);
            L.Inv(M.Server(s.server.db, store.value), initial)
  {
    hide L.Inv;
    var piece := Cut(Plain(c.rec), env.partSize)[k];
    L.PutKeeps(env, s.server, M.Put(p.meeting, p.uploadId, k + 1, piece), 0, true, initial);
  }

  lemma PutStaysOk(env: M.Env, store: StoreState, key: Key, u: nat, k: nat, data: Bytes)
    requires env.partSize > 0 && StoredOk(env, store, key, data)
    requires u in store.uploads && k < |Cut(data, env.partSize)|
    ensures StoredOk(env, PutPart(store, u, k + 1, Cut(data, env.partSize)[k]).value, key, data)
  {
  }

  lemma PutKeepsRecord(env: M.Env, server: M.Server, p: Progress, k: nat, data: Bytes)
    requires env.partSize > 0 && RecordOk(env, server, p, data)
    requires k == |p.confirmed| < |Cut(data, env.partSize)| && p.uploadId in server.store.uploads
    ensures var store := PutPart(server.store, p.uploadId, k + 1, Cut(data, env.partSize)[k]).value;
            var after := M.Server(server.db, store);
            && RecordOk(env, after, p, data)
            && RecordOk(env, after, p.(confirmed := p.confirmed + [Confirmed(k + 1, server.store.nextTag)]), data)
  {
  }

  /** One part sent, confirmed and written down. */
  lemma SlotKeeps(env: M.Env, c: Client, s: System, ticket: Ticket, p: Progress, net: Net, initial: nat)
    requires env.partSize > 0 && Readable(c.rec) && SysInv(env, c, s, initial) && s.vault == Owed
    requires s.disk == Some(p) && TicketFits(env, ticket, p, Plain(c.rec)) && |p.confirmed| < ticket.count
    ensures var k := |p.confirmed|;
            var (after, tag) := SendPart(s, p.uploadId, k + 1, Cut(Plain(c.rec), env.partSize)[k], net);
            && SysInv(env, c, after, initial) && after.vault == Owed
            && (tag.Ok? ==>
                  var more := Accept(p, Confirmed(k + 1, tag.value));
                  && SysInv(env, c, Write(after, more), initial)
                  && TicketFits(env, ticket, more, Plain(c.rec))
                  && InOrder(more.confirmed) && |more.confirmed| == k + 1)
  {
    var k := |p.confirmed|;
    SendPartKeeps(env, c, s, p, net, initial);
    var (after, tag) := SendPart(s, p.uploadId, k + 1, Cut(Plain(c.rec), env.partSize)[k], net);
    if tag.Ok? {
      HoldsPrefix(p, k + 1);
      NoteKeepsOurs(c, s.log, Sending(p.uploadId, k + 1));
      assert after.log == s.log + [Sending(p.uploadId, k + 1)];
      RecordKeeps(env, c, after, Accept(p, Confirmed(k + 1, tag.value)), initial);
    }
  }

  ghost predicate Sent(env: M.Env, c: Client, after: System, r: Result<Progress, UploadError>, ticket: Ticket, p: Progress, initial: nat)
    requires env.partSize > 0 && Readable(c.rec)
  {
    && SysInv(env, c, after, initial) && after.vault == Owed
    && (r.Ok? ==>
          && after.disk == Some(r.value) && r.value.meeting == p.meeting && r.value.uploadId == p.uploadId
          && |r.value.confirmed| == ticket.count)
    && (r.Err? ==> r.error.Api? || r.error.Io? || r.error.Vault?)
  }

  /** The loop over the slots: it never finds the recording shorter than the ticket unless a
      segment became unreadable, and it ends with every part confirmed and written down. */
  lemma {:induction false} SendKeeps(
      env: M.Env, c: Client, s: System, h: Handout, ticket: Ticket, p: Progress, k: nat, f: Fates, initial: nat)
    requires env.partSize > 0 && Readable(c.rec) && SysInv(env, c, s, initial) && s.vault == Owed
    requires Fits(h, Cut(Plain(c.rec), env.partSize))
    requires s.disk == Some(p) && TicketFits(env, ticket, p, Plain(c.rec)) && k <= ticket.count
    requires InOrder(p.confirmed) && k <= |p.confirmed| <= ticket.count
    ensures var (after, r) := Send(s, h, ticket, p, k, f);
            Sent(env, c, after, r, ticket, p, initial)
    decreases ticket.count - k
  {
    hide SysInv, SendPart;
    if k < ticket.count && k >= |h.pieces| {
      UnreadKeeps(env, c, s, k + 1, initial);
    } else if k < ticket.count {
      HoldsPrefix(p, k + 1);
      if Holds(p, k + 1) {
        SendKeeps(env, c, s, h, ticket, p, k + 1, f, initial);
      } else {
        assert h.pieces[k] == Cut(Plain(c.rec), env.partSize)[k];
        SlotKeeps(env, c, s, ticket, p, f.put(k), initial);
        var (after, tag) := SendPart(s, ticket.uploadId, k + 1, h.pieces[k], f.put(k));
        if tag.Ok? && f.save(k) {
          var more := Accept(p, Confirmed(k + 1, tag.value));
          SendKeeps(env, c, Write(after, more), h, ticket, more, k + 1, f, initial);
        }
      }
    }
  }

  lemma UnreadKeeps(env: M.Env, c: Client, s: System, number: nat, initial: nat)
    requires env.partSize > 0 && Readable(c.rec) && SysInv(env, c, s, initial) && s.vault == Owed
    ensures SysInv(env, c, Note(s, Unread(number)), initial)
  {
    NoteKeeps(c, s, Unread(number));
    NoteKeepsOurs(c, s.log, Unread(number));
  }

  // ------------------------------------------------------------ close

  /** A finish request either changes nothing in the database or commits its draft. */
  lemma FinishOutcome(env: M.Env, a: M.Server, e: M.Event, now: int, commits: bool)
    requires env.partSize > 0 && e.Finish? && M.Visible(a.db, e.m, e.caller)
    ensures var f := FinalizeOf(a, e, now);
            var o := M.Step(env, a, e, now, commits);
            && o.server.store == f.store
            && (|| (o.server.db == a.db && o.reply.Err?)
                || (f.result.Ok? && o.reply.Ok? && o.server.db == M.Save(a.db, e.m, f.result.value)))
  {
  }

  function FinalizeOf(a: M.Server, e: M.Event, now: int): M.Answer<M.Draft>
    requires e.Finish? && e.m in a.db.rows
  {
    M.Finalize(M.Load(a.db, e.m), a.db.org, e.caller, e.uploadId, e.tags, now, a.store, e.fate, e.deletion)
  }

  /** Finishing with every part confirmed stores the recording or nothing. */
  lemma OwnFinish(env: M.Env, c: Client, a: M.Server, e: M.Event, p: Progress, now: int, commits: bool, data: Bytes, initial: nat)
    requires env.partSize > 0 && data != [] && L.Inv(a, initial)
    requires OursOk(env, c, a, p.meeting, data) && RecordOk(env, a, p, data)
    requires e.Finish? && e.m == p.meeting && e.uploadId == p.uploadId && e.tags == p.confirmed
    requires |p.confirmed| == |Cut(data, env.partSize)|
    ensures var o := M.Step(env, a, e, now, commits);
            && OursOk(env, c, o.server, e.m, data)
            && RecordOk(env, o.server, p, data)
            && FinishReport(c, a, o, e.m, data)
  {
    if M.Visible(a.db, e.m, e.caller) {
      FinishOutcome(env, a, e, now, commits);
      if a.db.rows[e.m].audioKey.Some? {
        var key := AudioKey(a.db.org.id, e.m);
        assert a.db.rows[e.m].audioKey == Some(key);
        L.FinishIsSafe(a.db.org, e.m, a.db.rows[e.m], a.db.transcripts[e.m], a.db.reports[e.m],
                       e.caller, e.uploadId, e.tags, now, a.store, e.fate, e.deletion);
        if e.uploadId in a.store.uploads {
          CompleteStoresTheData(a.store, key, e.uploadId, e.tags, data, env.partSize);
        }
        FinalizeStore(env, a, e, p, now, data);
        FinalizeRow(a, e, now);
      }
    }
  }

  lemma FinalizeRow(a: M.Server, e: M.Event, now: int)
    requires e.Finish? && e.m in a.db.rows
    ensures var f := FinalizeOf(a, e, now);
            f.result.Ok? ==>
              && f.result.value.row.createdBy == a.db.rows[e.m].createdBy
              && f.result.value.row.audioKey == a.db.rows[e.m].audioKey && a.db.rows[e.m].audioKey.Some?
              && f.result.value.row.audioSha == a.db.rows[e.m].audioSha
              && f.result.value.row.audioBytes == Some(|f.store.objects[a.db.rows[e.m].audioKey.value]|)
              && f.result.value.row.duration == a.db.rows[e.m].duration
              && f.result.value.row.paused == a.db.rows[e.m].paused
              && f.result.value.row.uploadId == None
              && f.result.value.row.status in {M.Queued, M.QuotaHold}
  {
  }

  /** A meeting that left UPLOADING for the queue, or for the quota hold, has its audio. */
  ghost predicate FinishReport(c: Client, a: M.Server, o: M.Outcome, m: nat, data: Bytes) {
    && m in a.db.rows && m in o.server.db.rows
    && (o.server.db.rows[m].status != a.db.rows[m].status ==>
          && a.db.rows[m].status == M.Uploading && o.server.db.rows[m].status in {M.Queued, M.QuotaHold}
          && Timed(c, o.server.db.rows[m])
          && AudioKey(a.db.org.id, m) in o.server.store.objects
          && o.server.store.objects[AudioKey(a.db.org.id, m)] == data)
    && (o.reply.Ok? ==> o.server.db.rows[m].status != a.db.rows[m].status)
  }

  /** The store after a finish request: as before, with the recording stored, or with the
      object taken away again. */
  lemma FinalizeStore(env: M.Env, a: M.Server, e: M.Event, p: Progress, now: int, data: Bytes)
    requires env.partSize > 0 && e.Finish? && e.m in a.db.rows && e.uploadId == p.uploadId
    requires a.db.rows[e.m].audioKey == Some(AudioKey(a.db.org.id, e.m))
    requires StoredOk(env, a.store, AudioKey(a.db.org.id, e.m), data)
    requires Complete(a.store, AudioKey(a.db.org.id, e.m), e.uploadId, e.tags).Some? ==>
               Complete(a.store, AudioKey(a.db.org.id, e.m), e.uploadId, e.tags).value.objects
               == a.store.objects[AudioKey(a.db.org.id, e.m) := data]
    ensures var f := FinalizeOf(a, e, now);
            && StoredOk(env, f.store, AudioKey(a.db.org.id, e.m), data)
            && f.store.nextUpload == a.store.nextUpload
            && (f.store.uploads == a.store.uploads || f.store.uploads == a.store.uploads - {e.uploadId})
            && (f.result.Ok? ==>
                  && f.store.objects == a.store.objects[AudioKey(a.db.org.id, e.m) := data]
                  && f.store.uploads == a.store.uploads - {e.uploadId})
  {
  }

  lemma CloseKeeps(env: M.Env, c: Client, s: System, p: Progress, f: Fates, initial: nat)
    requires env.partSize > 0 && Readable(c.rec) && SysInv(env, c, s, initial) && s.vault == Owed
    requires Plain(c.rec) != [] && s.disk == Some(p) && |p.confirmed| == |Cut(Plain(c.rec), env.partSize)|
    ensures var (after, r) := Close(env, c, s, p.meeting, p, f);
            && SysInv(env, c, after, initial)
            && (r.Ok? ==> after.vault == Uploaded && r.value == p.meeting)
            && (r.Err? ==> after.vault == Owed && !r.error.Changed? && !r.error.Empty?)
            && Moved(c, s.server, after.server, p.meeting, Plain(c.rec))
            && (r.Ok? ==> after.server.db.rows[p.meeting].status != s.server.db.rows[p.meeting].status)
  {
    var e := M.Finish(p.meeting, c.user, p.uploadId, p.confirmed, f.finishStore, f.deletion);
    hide SysInv, M.Step;
    var noted := Note(s, Finishing(p.meeting));
    FinishingKeeps(env, c, s, p.meeting, initial);
    FinishKeeps(env, c, noted, p, e, f.now, f.finishCommits, initial);
    var (after, reply) := Ask(env, noted, e, f.now, f.finishCommits, f.finish);
    AnswerKeeps(env, c, after, p.meeting, f, initial);
  }

  lemma FinishingKeeps(env: M.Env, c: Client, s: System, m: nat, initial: nat)
    requires env.partSize > 0 && Readable(c.rec) && SysInv(env, c, s, initial) && s.vault == Owed
    ensures SysInv(env, c, Note(s, Finishing(m)), initial)
  {
    NoteKeeps(c, s, Finishing(m));
    NoteKeepsOurs(c, s.log, Finishing(m));
  }

  /** The answer arrived: noted, and the recording is no longer owed unless the vault fails. */
  lemma AnswerKeeps(env: M.Env, c: Client, s: System, m: nat, f: Fates, initial: nat)
    requires env.partSize > 0 && Readable(c.rec) && SysInv(env, c, s, initial) && s.vault == Owed
    ensures var told := Note(s, FinishAnswered(m));
            && SysInv(env, c, told, initial)
            && SysInv(env, c, told.(vault := Uploaded, disk := if f.forget then None else told.disk), initial)
  {
    NoteKeeps(c, s, FinishAnswered(m));
    NoteKeepsOurs(c, s.log, FinishAnswered(m));
    AnswerStays(s.log, m);
  }

  lemma AnswerStays(log: seq<Call>, m: nat)
    ensures FinishAnswered(m) in log + [FinishAnswered(m)]
  {
    assert (log + [FinishAnswered(m)])[|log|] == FinishAnswered(m);
  }

  /** A meeting that changed state between two points did so with its audio in place. */
  ghost predicate Moved(c: Client, a: M.Server, b: M.Server, m: nat, data: Bytes) {
    && m in a.db.rows && m in b.db.rows && b.db.org.id == a.db.org.id
    && (b.db.rows[m].status != a.db.rows[m].status ==>
          && a.db.rows[m].status == M.Uploading && b.db.rows[m].status in {M.Queued, M.QuotaHold}
          && Timed(c, b.db.rows[m])
          && AudioKey(a.db.org.id, m) in b.store.objects
          && b.store.objects[AudioKey(a.db.org.id, m)] == data)
  }

  lemma FinishKeeps(env: M.Env, c: Client, s: System, p: Progress, e: M.Event, now: int, commits: bool, initial: nat)
    requires env.partSize > 0 && Readable(c.rec) && SysInv(env, c, s, initial) && s.vault == Owed
    requires Plain(c.rec) != [] && s.disk == Some(p) && |p.confirmed| == |Cut(Plain(c.rec), env.partSize)|
    requires e.Finish? && e.m == p.meeting && e.uploadId == p.uploadId && e.tags == p.confirmed && e.caller == c.user
    ensures var o := M.Step(env, s.server, e, now, commits);
            && SysInv(env, c, s.(server := o.server), initial)
            && Moved(c, s.server, o.server, p.meeting, Plain(c.rec))
            && (o.reply.Ok? ==> o.server.db.rows[p.meeting].status != s.server.db.rows[p.meeting].status)
  {
    L.StepKeeps(env, s.server, e, now, commits, initial);
    L.RowsStay(env, s.server, e, now, commits, p.meeting);
    OwnFinish(env, c, s.server, e, p, now, commits, Plain(c.rec), initial);
    OthersKeep(env, c, s, e, now, commits, initial);
  }

  // ------------------------------------------------------------ a whole attempt

  /** No meeting entered the queue or the quota hold. */
  ghost predicate Quiet(a: M.Db, b: M.Db) {
    && b.org.id == a.org.id
    && (forall m :: m in a.rows ==>
          && m in b.rows
          && (b.rows[m].status in {M.Queued, M.QuotaHold} ==> a.rows[m].status == b.rows[m].status))
    && (forall m :: m in b.rows && m !in a.rows ==> b.rows[m].status !in {M.Queued, M.QuotaHold})
  }

  /** Whatever meeting entered the queue or the quota hold has its audio in the store and its
      times in the row. */
  ghost predicate Arrives(c: Client, a: M.Server, b: M.Server, data: Bytes) {
    forall m :: m in b.db.rows && b.db.rows[m].status in {M.Queued, M.QuotaHold}
                && !(m in a.db.rows && a.db.rows[m].status in {M.Queued, M.QuotaHold})
      ==> && AudioKey(a.db.org.id, m) in b.store.objects && b.store.objects[AudioKey(a.db.org.id, m)] == data
          && Timed(c, b.db.rows[m])
  }

  lemma IdentifyIsQuiet(env: M.Env, c: Client, s: System, f: Fates)
    requires env.partSize > 0
    ensures Quiet(s.server.db, Identify(env, c, s, f).0.server.db)
  {
    hide M.Unique;
  }

  lemma OpenIsQuiet(env: M.Env, c: Client, s: System, m: nat, data: Bytes, f: Fates)
    requires env.partSize > 0
    ensures Quiet(s.server.db, Open(env, c, s, m, data, f).0.server.db)
  {
    QuietSelf(s.server.db);
    StartIsQuiet(env, s.server, M.Start(m, c.user, Declaration(env, c, data), f.startStore), f.now, f.startCommits);
    hide M.Step, Quiet, AskResume, M.ResumeUpload;
  }

  lemma StartIsQuiet(env: M.Env, a: M.Server, e: M.Event, now: int, commits: bool)
    requires env.partSize > 0 && e.Start?
    ensures Quiet(a.db, M.Step(env, a, e, now, commits).server.db)
  {
  }

  lemma {:induction false} SendIsQuiet(s: System, h: Handout, ticket: Ticket, p: Progress, k: nat, f: Fates)
    requires k <= ticket.count
    ensures Send(s, h, ticket, p, k, f).0.server.db == s.server.db
    decreases ticket.count - k
  {
    if k < ticket.count && k < |h.pieces| {
      if Holds(p, k + 1) {
        SendIsQuiet(s, h, ticket, p, k + 1, f);
      } else {
        var (after, tag) := SendPart(s, ticket.uploadId, k + 1, h.pieces[k], f.put(k));
        if tag.Ok? && f.save(k) {
          var more := Accept(p, Confirmed(k + 1, tag.value));
          SendIsQuiet(Write(after, more), h, ticket, more, k + 1, f);
        }
      }
    }
  }

  lemma CloseMovesOne(env: M.Env, c: Client, s: System, m: nat, p: Progress, f: Fates)
    requires env.partSize > 0
    ensures var b := Close(env, c, s, m, p, f).0.server;
            && (forall n :: n in s.server.db.rows && n != m ==>
                  n in b.db.rows && b.db.rows[n].status == s.server.db.rows[n].status)
            && (forall n :: n in b.db.rows ==> n in s.server.db.rows)
  {
    var e := M.Finish(m, c.user, p.uploadId, p.confirmed, f.finishStore, f.deletion);
    if M.Visible(s.server.db, m, c.user) {
      FinishOutcome(env, s.server, e, f.now, f.finishCommits);
    }
  }

  lemma ArrivesAfter(c: Client, a: M.Server, b: M.Server, b': M.Server, m: nat, data: Bytes)
    requires Quiet(a.db, b.db) && Moved(c, b, b', m, data)
    requires forall n :: n in b.db.rows && n != m ==> n in b'.db.rows && b'.db.rows[n].status == b.db.rows[n].status
    requires forall n :: n in b'.db.rows ==> n in b.db.rows
    ensures Arrives(c, a, b', data)
  {
  }

  lemma QuietArrives(c: Client, a: M.Server, b: M.Server, data: Bytes)
    requires Quiet(a.db, b.db)
    ensures Arrives(c, a, b, data)
  {
  }

  lemma QuietTrans(a: M.Db, b: M.Db, c: M.Db)
    requires Quiet(a, b) && Quiet(b, c)
    ensures Quiet(a, c)
  {
  }

  /** What an attempt guarantees, however it ends. */
  ghost predicate Attempted(env: M.Env, c: Client, s: System, after: System, r: Result<nat, UploadError>, initial: nat)
    requires env.partSize > 0 && Readable(c.rec)
  {
    && SysInv(env, c, after, initial)
    && Arrives(c, s.server, after.server, Plain(c.rec))
    && (r.Ok? <==> after.vault == Uploaded)
    && (r.Err? ==> !r.error.Changed? && (r.error.Empty? ==> Plain(c.rec) == []))
  }

  lemma AttemptKeeps(env: M.Env, c: Client, s: System, f: Fates, initial: nat)
    requires env.partSize > 0 && Readable(c.rec) && SysInv(env, c, s, initial) && s.vault == Owed
    ensures var (after, r) := Attempt(env, c, s, f);
            Attempted(env, c, s, after, r, initial)
  {
    hide SysInv, M.Step, Open, Close, Send, Identify, Moved, Quiet, Arrives;
    var data := Plain(c.rec);
    DamagedFits(c.rec, s.damaged, env.partSize);
    hide Damaged;
    if data == [] || !Unharmed(c.rec, s.damaged) {
      QuietSelf(s.server.db);
      QuietArrives(c, s.server, s.server, data);
    } else {
      var (s1, who) := Identify(env, c, s, f);
      IdentifyKeeps(env, c, s, f, initial);
      IdentifyIsQuiet(env, c, s, f);
      if who.Err? {
        QuietArrives(c, s.server, s1.server, data);
      } else {
        AttemptFrom(env, c, s, s1, who.value, f, initial);
      }
    }
  }

  /** Damage is no move of the server or of the uploader. */
  lemma DecayKeeps(env: M.Env, c: Client, s: System, lost: set<nat>, initial: nat)
    requires env.partSize > 0 && Readable(c.rec) && SysInv(env, c, s, initial)
    ensures SysInv(env, c, Decay(s, lost), initial)
  {
  }

  lemma QuietSelf(a: M.Db)
    ensures Quiet(a, a)
  {
  }

  /** From the known meeting on. */
  lemma AttemptFrom(env: M.Env, c: Client, s: System, s1: System, m: nat, f: Fates, initial: nat)
    requires env.partSize > 0 && Readable(c.rec) && SysInv(env, c, s1, initial) && s1.vault == Owed
    requires Plain(c.rec) != [] && Ours(c, s1.log, m) && (s1.disk.Some? ==> s1.disk.value.meeting == m)
    requires Quiet(s.server.db, s1.server.db)
    ensures var (s2, opening) := Open(env, c, s1, m, Plain(c.rec), f);
            if opening.Err? then Attempted(env, c, s, s2, Err(opening.error), initial)
            else
              var (ticket, p) := opening.value;
              var again := Decay(s2, f.lost);
              var (s3, sent) := Send(again, HandedOver(c, again, Max(ticket.partSize, 1)), ticket, p, 0, f);
              if sent.Err? then Attempted(env, c, s, s3, Err(sent.error), initial)
              else
                var (s4, r) := Close(env, c, s3, m, sent.value, f);
                Attempted(env, c, s, s4, r, initial)
  {
    hide SysInv, M.Step, Open, Close, Send, Moved, Quiet, Arrives;
    var data := Plain(c.rec);
    var (s2, opening) := Open(env, c, s1, m, data, f);
    OpenKeeps(env, c, s1, m, f, initial);
    OpenIsQuiet(env, c, s1, m, data, f);
    QuietTrans(s.server.db, s1.server.db, s2.server.db);
    QuietArrives(c, s.server, s2.server, data);
    if opening.Ok? {
      var (ticket, p) := opening.value;
      var again := Decay(s2, f.lost);
      DecayKeeps(env, c, s2, f.lost, initial);
      var h := HandedOver(c, again, Max(ticket.partSize, 1));
      DamagedFits(c.rec, again.damaged, env.partSize);
      var (s3, sent) := Send(again, h, ticket, p, 0, f);
      RecordInOrder(env, c, again, initial);
      SendKeeps(env, c, again, h, ticket, p, 0, f, initial);
      SendIsQuiet(again, h, ticket, p, 0, f);
      QuietArrives(c, s.server, s3.server, data);
      if sent.Ok? {
        CloseKeeps(env, c, s3, sent.value, f, initial);
        CloseMovesOne(env, c, s3, m, sent.value, f);
        ArrivesAfter(c, s.server, s3.server, Close(env, c, s3, m, sent.value, f).0.server, m, data);
      }
    }
  }

  lemma RecordInOrder(env: M.Env, c: Client, s: System, initial: nat)
    requires env.partSize > 0 && Readable(c.rec) && SysInv(env, c, s, initial) && s.disk.Some?
    ensures InOrder(s.disk.value.confirmed)
    ensures |s.disk.value.confirmed| <= |Cut(Plain(c.rec), env.partSize)|
  {
  }

  // ------------------------------------------------------------ every run

  function RunMoves(env: M.Env, c: Client, s: System, moves: seq<Move>): System
    requires env.partSize > 0
    decreases |moves|
  {
    if moves == [] then s
    else Take(env, c, RunMoves(env, c, s, moves[..|moves| - 1]), moves[|moves| - 1])
  }

  /** Between attempts anything may happen on the server, except that only this client
      starts, fills and finishes the meetings it uploads to. */
  ghost predicate Fair(env: M.Env, c: Client, s: System, moves: seq<Move>)
    requires env.partSize > 0
    decreases |moves|
  {
    moves != [] ==>
      && Fair(env, c, s, moves[..|moves| - 1])
      && (moves[|moves| - 1].Meanwhile? ==>
            ForeignToUs(c, RunMoves(env, c, s, moves[..|moves| - 1]).log, moves[|moves| - 1].event))
  }

  ghost predicate ForeignToUs(c: Client, log: seq<Call>, e: M.Event) {
    forall m :: Ours(c, log, m) ==> Foreign(e, m)
  }

  /** A finished recording that nothing was done with yet: never declared, or declared by its
      author and not started. */
  ghost predicate Untouched(c: Client, s: System, initial: nat) {
    && Readable(c.rec) && L.Inv(s.server, initial)
    && s.disk.None? && s.vault == Owed && s.log == []
    && (c.meetingId.Some? ==>
          && c.meetingId.value in s.server.db.rows
          && s.server.db.rows[c.meetingId.value].createdBy == c.user.id
          && s.server.db.rows[c.meetingId.value].audioKey.None?)
  }

  lemma UntouchedIsFine(env: M.Env, c: Client, s: System, initial: nat)
    requires env.partSize > 0 && Untouched(c, s, initial)
    ensures SysInv(env, c, s, initial)
  {
    forall m | Ours(c, s.log, m)
      ensures OursOk(env, c, s.server, m, Plain(c.rec))
    {
      assert L.Named(s.server.db.org.id, m, s.server.db.rows[m], s.server.store);
      assert L.RowOk(s.server.db.org.id, m, s.server.db.rows[m], s.server.db.transcripts[m], s.server.db.reports[m]);
      forall u, n | u in s.server.store.uploads && s.server.store.uploads[u].key == AudioKey(s.server.db.org.id, m)
        ensures n !in s.server.store.uploads[u].parts
      {
        assert !L.HasParts(s.server.store.uploads[u], AudioKey(s.server.db.org.id, m));
      }
    }
  }

  lemma {:induction false} EveryRunSafe(env: M.Env, c: Client, s: System, moves: seq<Move>, initial: nat)
    requires env.partSize > 0 && Untouched(c, s, initial) && Fair(env, c, s, moves)
    ensures SysInv(env, c, RunMoves(env, c, s, moves), initial)
    decreases |moves|
  {
    hide SysInv, M.Step, Attempt;
    if moves == [] {
      UntouchedIsFine(env, c, s, initial);
    } else {
      var before := RunMoves(env, c, s, moves[..|moves| - 1]);
      EveryRunSafe(env, c, s, moves[..|moves| - 1], initial);
      match moves[|moves| - 1]
      case Try(f) =>
        if before.vault == Owed {
          AttemptKeeps(env, c, before, f, initial);
        }
      case Meanwhile(e, now, commits) => MeanwhileKeeps(env, c, before, e, now, commits, initial);
      case Decays(lost) => DecayKeeps(env, c, before, lost, initial);
    }
  }

  // ------------------------------------------------------------ main results

  /** Over every run of interrupted attempts: whatever the store holds under one of our
      meetings is the recording, byte for byte, and it is there whenever an attempt moves a
      meeting to the queue or to the quota hold. */
  lemma RecordingArrivesWhole(env: M.Env, c: Client, s: System, moves: seq<Move>, next: Fates, initial: nat)
    requires env.partSize > 0 && Untouched(c, s, initial) && Fair(env, c, s, moves)
    ensures var t := RunMoves(env, c, s, moves);
            && (forall m :: Ours(c, t.log, m) && AudioKey(t.server.db.org.id, m) in t.server.store.objects ==>
                  t.server.store.objects[AudioKey(t.server.db.org.id, m)] == Plain(c.rec))
            && Arrives(c, t.server, Take(env, c, t, Try(next)).server, Plain(c.rec))
  {
    EveryRunSafe(env, c, s, moves, initial);
    var t := RunMoves(env, c, s, moves);
    if t.vault == Owed {
      AttemptKeeps(env, c, t, next, initial);
    } else {
      QuietSelf(t.server.db);
      QuietArrives(c, t.server, t.server, Plain(c.rec));
    }
  }

  /** Over the same runs: while a meeting of ours is being uploaded its row counts the whole
      seconds this client recorded and those it was paused, and it still does when an attempt
      moves it to the queue or to the quota hold. */
  lemma DeclaredTimesArrive(env: M.Env, c: Client, s: System, moves: seq<Move>, next: Fates, initial: nat)
    requires env.partSize > 0 && Untouched(c, s, initial) && Fair(env, c, s, moves)
    ensures var t := RunMoves(env, c, s, moves);
            var after := Take(env, c, t, Try(next));
            && (forall m :: Ours(c, after.log, m) ==>
                  && m in after.server.db.rows
                  && (after.server.db.rows[m].status == M.Uploading ==>
                        && after.server.db.rows[m].duration == c.recordedMs / 1000
                        && after.server.db.rows[m].paused == c.pausedMs / 1000))
            && (forall m :: m in after.server.db.rows && after.server.db.rows[m].status in {M.Queued, M.QuotaHold}
                            && !(m in t.server.db.rows && t.server.db.rows[m].status in {M.Queued, M.QuotaHold}) ==>
                  && after.server.db.rows[m].duration == c.recordedMs / 1000
                  && after.server.db.rows[m].paused == c.pausedMs / 1000)
  {
    hide RunMoves, Attempt;
    EveryRunSafe(env, c, s, moves, initial);
    RecordingArrivesWhole(env, c, s, moves, next, initial);
    var t := RunMoves(env, c, s, moves);
    if t.vault == Owed {
      AttemptKeeps(env, c, t, next, initial);
    }
    InvParts(env, c, Take(env, c, t, Try(next)), initial);
    hide SysInv, Untouched, Fair, StoredOk, Plain;
  }

  /** The worker's checksum never refuses a recording that came through an attempt. */
  lemma ChecksumHolds(env: M.Env, c: Client, s: System, moves: seq<Move>, m: nat, reachable: bool, initial: nat)
    requires env.partSize > 0 && Untouched(c, s, initial) && Fair(env, c, s, moves)
    ensures var t := RunMoves(env, c, s, moves);
            Ours(c, t.log, m) ==>
              && m in t.server.db.rows
              && (t.server.db.rows[m].audioKey.Some? ==>
                    M.VerifyAudio(env, t.server.store, t.server.db.rows[m].audioKey.value,
                                  t.server.db.rows[m].audioSha, reachable) != Some(M.ChecksumMismatch))
  {
    EveryRunSafe(env, c, s, moves, initial);
    var t := RunMoves(env, c, s, moves);
    if Ours(c, t.log, m) {
      assert OursOk(env, c, t.server, m, Plain(c.rec));
      assert L.RowOk(t.server.db.org.id, m, t.server.db.rows[m], t.server.db.transcripts[m], t.server.db.reports[m]);
    }
  }

  /** Once a record is on disk nothing is declared or started again, no part it confirms is
      ever sent again, and only an answered finish takes the recording off what is owed. */
  lemma NothingIsDoneTwice(env: M.Env, c: Client, s: System, moves: seq<Move>, initial: nat)
    requires env.partSize > 0 && Untouched(c, s, initial) && Fair(env, c, s, moves)
    ensures var t := RunMoves(env, c, s, moves);
            && (forall i, j :: 0 <= i < j < |t.log| && t.log[i].Saved? ==>
                  && !t.log[j].Declaring? && !t.log[j].Starting?
                  && !(t.log[j].Sending? && t.log[j].uploadId == t.log[i].record.uploadId
                       && Holds(t.log[i].record, t.log[j].number)))
            && (t.vault == Uploaded ==> exists m :: FinishAnswered(m) in t.log)
  {
    EveryRunSafe(env, c, s, moves, initial);
    var t := RunMoves(env, c, s, moves);
    forall i, j | 0 <= i < j < |t.log| && t.log[i].Saved?
      ensures !t.log[j].Declaring? && !t.log[j].Starting?
      ensures !(t.log[j].Sending? && t.log[j].uploadId == t.log[i].record.uploadId && Holds(t.log[i].record, t.log[j].number))
    {
      assert Follows(t.log[i], t.log[j]);
    }
  }

  // ------------------------------------------------------------ when an attempt is reported as abandoned

  /** What makes an attempt end in an error that does not pass: a call answered 401 or 403, a
      segment that can no longer be read, or a vault that cannot be told of the arrival. */
  predicate Ends(call: Call, f: Fates) {
    match call
    case Declaring(_) => f.declare == TurnedAway
    case Starting(_) => f.start == TurnedAway
    case Resuming(_) => f.resume == TurnedAway
    case Finishing(_) => f.finish == TurnedAway
    case FinishAnswered(_) => !f.mark
    case Unread(_) => true
    case _ => false
  }

  ghost predicate Ended(earlier: seq<Call>, later: seq<Call>, f: Fates) {
    exists i :: |earlier| <= i < |later| && Ends(later[i], f)
  }

  /** Reported as abandoned; it is still owed, and tried again on the next pass. */
  predicate Abandoned<T>(r: Result<T, UploadError>) {
    r.Err? && !IsTransient(r.error)
  }

  /** One stage of an attempt: it only adds to the log, and ends so exactly upon such a call. */
  ghost predicate Tells<T>(s: System, after: System, r: Result<T, UploadError>, f: Fates) {
    s.log <= after.log && (Abandoned(r) <==> Ended(s.log, after.log, f))
  }

  lemma NothingTold<T>(s: System, after: System, r: Result<T, UploadError>, f: Fates)
    requires after.log == s.log && !Abandoned(r)
    ensures Tells(s, after, r, f)
  {
  }

  lemma OneTold<T>(s: System, after: System, call: Call, r: Result<T, UploadError>, f: Fates)
    requires after.log == s.log + [call] && (Abandoned(r) <==> Ends(call, f))
    ensures Tells(s, after, r, f)
  {
    if Ends(call, f) {
      assert Ends(after.log[|s.log|], f);
    }
  }

  /** One stage after another that did not end so. */
  lemma TellsThen<T, U>(
      s: System, between: System, after: System, one: Result<T, UploadError>, two: Result<U, UploadError>, f: Fates)
    requires Tells(s, between, one, f) && Tells(between, after, two, f) && !Abandoned(one)
    ensures Tells(s, after, two, f)
  {
    EndedEitherWay(s.log, between.log, after.log, f);
    hide Ends;
  }

  lemma EndedEitherWay(earlier: seq<Call>, between: seq<Call>, later: seq<Call>, f: Fates)
    requires earlier <= between <= later
    ensures Ended(earlier, later, f) <==> Ended(earlier, between, f) || Ended(between, later, f)
  {
    hide Ends;
    if Ended(earlier, later, f) {
      var i :| |earlier| <= i < |later| && Ends(later[i], f);
      if i < |between| {
        assert Ends(between[i], f);
      }
    }
    if Ended(earlier, between, f) {
      var i :| |earlier| <= i < |between| && Ends(between[i], f);
      assert Ends(later[i], f);
    }
  }

  lemma TellsAlike<T, U>(s: System, after: System, one: Result<T, UploadError>, two: Result<U, UploadError>, f: Fates)
    requires Tells(s, after, one, f) && one.Err? && two == Err(one.error)
    ensures Tells(s, after, two, f)
  {
  }

  /** The services refuse nobody who owns the meeting. */
  lemma OwnerIsNotForbidden(env: M.Env, a: M.Server, e: M.Event, now: int, commits: bool)
    requires env.partSize > 0 && (e.Declare? || e.Start? || e.Finish?)
    requires !e.Declare? && e.m in a.db.rows ==> a.db.rows[e.m].createdBy == e.caller.id
    ensures M.Step(env, a, e, now, commits).reply != Err(M.Forbidden)
  {
    hide PartCountFor, M.Unique, StartMultipart, Complete, M.AllowedFrom;
  }

  /** A call ends so exactly when it is turned away. */
  lemma AskTells(env: M.Env, s: System, e: M.Event, now: int, commits: bool, net: Net)
    requires env.partSize > 0 && (e.Declare? || e.Start? || e.Finish?)
    requires !e.Declare? && e.m in s.server.db.rows ==> s.server.db.rows[e.m].createdBy == e.caller.id
    ensures var (after, r) := Ask(env, s, e, now, commits, net);
            && after.log == s.log
            && (r.Err? ==> (!IsTransient(Api(r.error)) <==> net == TurnedAway))
            && (net == TurnedAway ==> r.Err?)
  {
    OwnerIsNotForbidden(env, s.server, e, now, commits);
    hide M.Step;
  }

  /** The declaration, as a stage of the attempt. */
  function Identified(who: Result<nat, ApiError>): Result<nat, UploadError> {
    if who.Err? then Err(Api(who.error)) else Ok(who.value)
  }

  lemma IdentifyTells(env: M.Env, c: Client, s: System, f: Fates)
    requires env.partSize > 0
    ensures var (after, who) := Identify(env, c, s, f);
            Tells(s, after, Identified(who), f)
  {
    var (after, who) := Identify(env, c, s, f);
    if s.disk.Some? || c.meetingId.Some? {
      NothingTold(s, after, Identified(who), f);
    } else {
      AskTells(env, s, M.Declare(f.declareAs, c.user, false), f.now, f.declareCommits, f.declare);
      hide Ask;
      OneTold(s, after, after.log[|s.log|], Identified(who), f);
    }
  }

  lemma ResumeTells(env: M.Env, c: Client, s: System, m: nat, f: Fates, initial: nat)
    requires env.partSize > 0 && Readable(c.rec) && SysInv(env, c, s, initial) && s.vault == Owed
    requires Plain(c.rec) != [] && s.disk.Some? && s.disk.value.meeting == m
    ensures var (after, r) := Open(env, c, s, m, Plain(c.rec), f);
            Tells(s, after, r, f)
  {
    var (after, r) := Open(env, c, s, m, Plain(c.rec), f);
    ResumeOpens(env, c, s, m, f, initial);
    assert OursOk(env, c, s.server, m, Plain(c.rec));
    ResumedTicketFits(env, c, Note(s, Resuming(m)), s.disk.value, Plain(c.rec), f.resume, f.resumeStore);
    OneTold(s, after, Resuming(m), r, f);
  }

  lemma StartLog(env: M.Env, c: Client, s: System, m: nat, data: Bytes, f: Fates)
    requires env.partSize > 0 && s.disk.None?
    requires m in s.server.db.rows && s.server.db.rows[m].createdBy == c.user.id
    ensures var e := M.Start(m, c.user, Declaration(env, c, data), f.startStore);
            var asked := Ask(env, Note(s, Starting(m)), e, f.now, f.startCommits, f.start).0;
            var (after, r) := Open(env, c, s, m, data, f);
            && asked.log == s.log + [Starting(m)]
            && (r.Err? ==> after.log == s.log + [Starting(m)] && (Abandoned(r) <==> Ends(Starting(m), f)))
            && (r.Ok? ==> after.log == asked.log + [Saved(r.value.1)] && !Ends(Starting(m), f))
  {
    var e := M.Start(m, c.user, Declaration(env, c, data), f.startStore);
    OpenByStart(env, c, s, m, data, f);
    AskTells(env, Note(s, Starting(m)), e, f.now, f.startCommits, f.start);
    hide M.Step, Open, Ask;
  }

  lemma StartTells(env: M.Env, c: Client, s: System, m: nat, f: Fates, initial: nat)
    requires env.partSize > 0 && Readable(c.rec) && SysInv(env, c, s, initial) && s.vault == Owed
    requires Plain(c.rec) != [] && Ours(c, s.log, m) && s.disk.None?
    ensures var (after, r) := Open(env, c, s, m, Plain(c.rec), f);
            Tells(s, after, r, f)
  {
    hide *;
    OursIsOwned(env, c, s, m, initial);
    StartLog(env, c, s, m, Plain(c.rec), f);
    var e := M.Start(m, c.user, Declaration(env, c, Plain(c.rec)), f.startStore);
    var asked := Ask(env, Note(s, Starting(m)), e, f.now, f.startCommits, f.start).0;
    var (after, r) := Open(env, c, s, m, Plain(c.rec), f);
    if r.Err? {
      OneTold(s, after, Starting(m), r, f);
    } else {
      SavedTells(s, asked, after, Starting(m), Saved(r.value.1), r, f);
    }
  }

  /** A call that was answered, and a record written down. */
  lemma SavedTells<T>(s: System, asked: System, after: System, call: Call, saved: Call, r: Result<T, UploadError>, f: Fates)
    requires asked.log == s.log + [call] && after.log == asked.log + [saved] && saved.Saved?
    requires r.Ok? && !Ends(call, f)
    ensures Tells(s, after, r, f)
  {
    hide Tells, Ended;
    OneTold(s, asked, call, r, f);
    OneTold(asked, after, saved, r, f);
    TellsThen(s, asked, after, r, r, f);
  }

  lemma OursIsOwned(env: M.Env, c: Client, s: System, m: nat, initial: nat)
    requires env.partSize > 0 && Readable(c.rec) && SysInv(env, c, s, initial) && Ours(c, s.log, m)
    ensures m in s.server.db.rows && s.server.db.rows[m].createdBy == c.user.id
  {
    assert OursOk(env, c, s.server, m, Plain(c.rec));
  }

  lemma OpenTells(env: M.Env, c: Client, s: System, m: nat, f: Fates, initial: nat)
    requires env.partSize > 0 && Readable(c.rec) && SysInv(env, c, s, initial) && s.vault == Owed
    requires Plain(c.rec) != [] && Ours(c, s.log, m) && (s.disk.Some? ==> s.disk.value.meeting == m)
    ensures var (after, r) := Open(env, c, s, m, Plain(c.rec), f);
            Tells(s, after, r, f)
  {
    if s.disk.Some? {
      ResumeTells(env, c, s, m, f, initial);
    } else {
      StartTells(env, c, s, m, f, initial);
    }
  }

  lemma {:induction false} SendTells(s: System, h: Handout, ticket: Ticket, p: Progress, k: nat, f: Fates)
    requires k <= ticket.count && (h.breaks || |h.pieces| >= ticket.count)
    ensures var (after, r) := Send(s, h, ticket, p, k, f);
            Tells(s, after, r, f)
    decreases ticket.count - k
  {
    hide SendPart, Ended, Accept;
    var (last, r) := Send(s, h, ticket, p, k, f);
    if k == ticket.count {
      NothingTold(s, last, r, f);
    } else if k >= |h.pieces| {
      OneTold(s, last, Unread(k + 1), r, f);
    } else if Holds(p, k + 1) {
      SendTells(s, h, ticket, p, k + 1, f);
    } else {
      var (after, tag) := SendPart(s, ticket.uploadId, k + 1, h.pieces[k], f.put(k));
      SendPartPasses(s, ticket.uploadId, k + 1, h.pieces[k], f.put(k));
      if tag.Ok? && f.save(k) {
        var more := Accept(p, Confirmed(k + 1, tag.value));
        OneTold(s, after, Sending(ticket.uploadId, k + 1), Ok(()), f);
        OneTold(after, Write(after, more), Saved(more), Ok(()), f);
        TellsThen(s, after, Write(after, more), Ok(()), Ok(()), f);
        SendTells(Write(after, more), h, ticket, more, k + 1, f);
        TellsThen(s, Write(after, more), last, Ok(()), r, f);
      } else {
        OneTold(s, last, Sending(ticket.uploadId, k + 1), r, f);
      }
    }
  }

  /** A part that is not taken is tried again. */
  lemma SendPartPasses(s: System, uploadId: nat, number: nat, bytes: Bytes, net: Net)
    ensures var (after, tag) := SendPart(s, uploadId, number, bytes, net);
            && after.log == s.log + [Sending(uploadId, number)]
            && (tag.Err? ==> IsTransient(Api(tag.error)))
  {
  }

  lemma CloseTells(env: M.Env, c: Client, s: System, p: Progress, f: Fates)
    requires env.partSize > 0
    requires p.meeting in s.server.db.rows && s.server.db.rows[p.meeting].createdBy == c.user.id
    ensures var (after, r) := Close(env, c, s, p.meeting, p, f);
            Tells(s, after, r, f)
  {
    var noted := Note(s, Finishing(p.meeting));
    var e := M.Finish(p.meeting, c.user, p.uploadId, p.confirmed, f.finishStore, f.deletion);
    AskTells(env, noted, e, f.now, f.finishCommits, f.finish);
    hide Ask;
    var (asked, reply) := Ask(env, noted, e, f.now, f.finishCommits, f.finish);
    var (after, r) := Close(env, c, s, p.meeting, p, f);
    if reply.Err? {
      OneTold(s, after, Finishing(p.meeting), r, f);
    } else {
      OneTold(s, asked, Finishing(p.meeting), Ok(()), f);
      OneTold(asked, after, FinishAnswered(p.meeting), r, f);
      TellsThen(s, asked, after, Ok(()), r, f);
    }
  }

  /** A recording that is damaged when it is weighed gets no further. */
  lemma HarmedAttempt(env: M.Env, c: Client, s: System, f: Fates)
    requires env.partSize > 0 && Readable(c.rec) && !Unharmed(c.rec, s.damaged)
    ensures Attempt(env, c, s, f) == (s, Err(Vault))
  {
    DamagedFits(c.rec, s.damaged, env.partSize);
  }

  lemma AttemptTells(env: M.Env, c: Client, s: System, f: Fates, initial: nat)
    requires env.partSize > 0 && Readable(c.rec) && SysInv(env, c, s, initial) && s.vault == Owed
    requires Plain(c.rec) != [] && Unharmed(c.rec, s.damaged)
    ensures var (after, r) := Attempt(env, c, s, f);
            Tells(s, after, r, f)
  {
    DamagedFits(c.rec, s.damaged, env.partSize);
    hide Damaged, SysInv, M.Step, Open, Close, Send, Identify, Tells;
    var data := Plain(c.rec);
    var (s1, who) := Identify(env, c, s, f);
    IdentifyKeeps(env, c, s, f, initial);
    IdentifyTells(env, c, s, f);
    var r := Attempt(env, c, s, f).1;
    if who.Err? {
      TellsAlike(s, s1, Identified(who), r, f);
    } else {
      var (s2, opening) := Open(env, c, s1, who.value, data, f);
      OpenKeeps(env, c, s1, who.value, f, initial);
      OpenTells(env, c, s1, who.value, f, initial);
      TellsThen(s, s1, s2, Identified(who), opening, f);
      if opening.Err? {
        TellsAlike(s, s2, opening, r, f);
      } else {
        SendAndCloseTell(env, c, s, s2, opening, f, initial);
        var (ticket, p) := opening.value;
        var again := Decay(s2, f.lost);
        var (s3, sent) := Send(again, HandedOver(c, again, Max(ticket.partSize, 1)), ticket, p, 0, f);
        if sent.Err? {
          TellsAlike(s, s3, sent, r, f);
        }
      }
    }
  }

  lemma SendAndCloseTell(
      env: M.Env, c: Client, s: System, s2: System, opening: Result<(Ticket, Progress), UploadError>, f: Fates, initial: nat)
    requires env.partSize > 0 && Readable(c.rec) && Plain(c.rec) != [] && opening.Ok?
    requires Opened(env, c, s2, opening, opening.value.1.meeting, initial) && Tells(s, s2, opening, f)
    ensures var (ticket, p) := opening.value;
            var again := Decay(s2, f.lost);
            var (s3, sent) := Send(again, HandedOver(c, again, Max(ticket.partSize, 1)), ticket, p, 0, f);
            if sent.Err? then Tells(s, s3, sent, f)
            else
              var (s4, r) := Close(env, c, s3, p.meeting, sent.value, f);
              Tells(s, s4, r, f)
  {
    hide SysInv, M.Step, Close, Send, Tells;
    var (ticket, p) := opening.value;
    var again := Decay(s2, f.lost);
    DecayKeeps(env, c, s2, f.lost, initial);
    var h := HandedOver(c, again, Max(ticket.partSize, 1));
    var (s3, sent) := Send(again, h, ticket, p, 0, f);
    DamagedFits(c.rec, again.damaged, env.partSize);
    RecordInOrder(env, c, again, initial);
    SendKeeps(env, c, again, h, ticket, p, 0, f, initial);
    SendTells(again, h, ticket, p, 0, f);
    DecayTells(s, s2, f.lost, opening, f);
    TellsThen(s, again, s3, opening, sent, f);
    if sent.Ok? {
      RecordIsOurs(env, c, s3, initial);
      CloseTells(env, c, s3, sent.value, f);
      TellsThen(s, s3, Close(env, c, s3, p.meeting, sent.value, f).0, sent,
                Close(env, c, s3, p.meeting, sent.value, f).1, f);
    }
  }

  lemma DecayTells<T>(s: System, after: System, lost: set<nat>, r: Result<T, UploadError>, f: Fates)
    requires Tells(s, after, r, f)
    ensures Tells(s, Decay(after, lost), r, f)
  {
  }

  lemma RecordIsOurs(env: M.Env, c: Client, s: System, initial: nat)
    requires env.partSize > 0 && Readable(c.rec) && SysInv(env, c, s, initial) && s.disk.Some?
    ensures s.disk.value.meeting in s.server.db.rows
    ensures s.server.db.rows[s.disk.value.meeting].createdBy == c.user.id
  {
    assert OursOk(env, c, s.server, s.disk.value.meeting, Plain(c.rec));
  }

  /** After any run, an attempt on a recording that holds audio ends in an error that does not
      pass exactly when the recording is damaged already, some call of this attempt was
      answered 401 or 403, a segment could not be read again, or the vault could not be told. */
  lemma AbandonedIff(env: M.Env, c: Client, s: System, moves: seq<Move>, next: Fates, initial: nat)
    requires env.partSize > 0 && Untouched(c, s, initial) && Fair(env, c, s, moves)
    ensures var t := RunMoves(env, c, s, moves);
            var (after, r) := Attempt(env, c, t, next);
            t.vault == Owed && Plain(c.rec) != [] ==>
              && (Abandoned(r) <==>
                    || !Unharmed(c.rec, t.damaged)
                    || exists i :: |t.log| <= i < |after.log| && Ends(after.log[i], next))
              && (r.Err? ==> !r.error.Changed? && !r.error.Empty?)
  {
    EveryRunSafe(env, c, s, moves, initial);
    var t := RunMoves(env, c, s, moves);
    if t.vault == Owed && Plain(c.rec) != [] {
      AttemptKeeps(env, c, t, next, initial);
      if Unharmed(c.rec, t.damaged) {
        AttemptTells(env, c, t, next, initial);
      } else {
        HarmedAttempt(env, c, t, next);
      }
    }
    hide Attempt, SysInv, RunMoves;
  }
}
