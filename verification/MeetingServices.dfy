/** The meeting services and the two worker stages in the form of the source: objects whose
    attributes are assigned one after the other, a store that is called, a session that
    collects what will be added. Each is proved equal to its function in `Meetings`. */
module MeetingServices {
  import opened Prelude
  import opened Assembly
  import OS = ObjectStore
  import M = Meetings

  // ------------------------------------------------------------ the objects

  class Meeting {
    const id: nat
    const organization: nat
    const createdBy: nat
    const isPrivate: bool
    var status: M.Status
    var audioKey: Option<OS.Key>
    var uploadId: Option<nat>
    var audioBytes: Option<nat>
    var audioSha: Option<nat>
    var duration: nat
    var paused: nat
    var purgeAt: Option<int>
    var purgedAt: Option<int>
    var completedAt: Option<int>
    var failedReason: Option<M.Code>

    function Row(): M.Row
      reads this
    {
      M.Row(id, organization, createdBy, isPrivate, status, audioKey, uploadId, audioBytes, audioSha,
            duration, paused, purgeAt, purgedAt, completedAt, failedReason)
    }

    constructor (row: M.Row)
      ensures Row() == row
    {
      id, organization, createdBy, isPrivate := row.id, row.organization, row.createdBy, row.isPrivate;
      status, audioKey, uploadId := row.status, row.audioKey, row.uploadId;
      audioBytes, audioSha, duration, paused := row.audioBytes, row.audioSha, row.duration, row.paused;
      purgeAt, purgedAt, completedAt, failedReason := row.purgeAt, row.purgedAt, row.completedAt, row.failedReason;
    }
  }

  /** What the transaction will add to the audit log. */
  class Session {
    var added: seq<M.Transition>

    constructor ()
      ensures added == []
    {
      added := [];
    }
  }

  function DraftOf(meeting: Meeting, session: Session): M.Draft
    reads meeting, session
  {
    M.Draft(meeting.Row(), session.added)
  }

  /** What a call to the store raises. */
  datatype Raised = StorageError | Broken

  function Outcome(fate: OS.StoreFate): Result<(), Raised> {
    match fate
    case Answers => Ok(())
    case Refuses(_) => Err(StorageError)
    case Breaks(_) => Err(Broken)
  }

  class StorageProvider {
    var objects: map<OS.Key, Bytes>
    var uploads: map<nat, OS.Upload>
    var nextUpload: nat
    var nextTag: nat

    function State(): OS.StoreState
      reads this
    {
      OS.StoreState(objects, uploads, nextUpload, nextTag)
    }

    constructor ()
      ensures State() == OS.EMPTY_STORE
    {
      objects, uploads, nextUpload, nextTag := map[], map[], 0, 0;
    }

    method StartMultipart(key: OS.Key, fate: OS.StoreFate) returns (r: Result<nat, Raised>)
      modifies this
      ensures State() == if OS.Applied(fate) then OS.StartMultipart(old(State()), key) else old(State())
      ensures r.Ok? <==> fate.Answers?
      ensures r.Ok? ==> r.value == old(nextUpload)
      ensures r.Err? ==> Outcome(fate) == Err(r.error)
    {
      var uploadId := nextUpload;
      if OS.Applied(fate) {
        uploads := uploads[uploadId := OS.Upload(key, map[])];
        nextUpload := nextUpload + 1;
      }
      match fate {
        case Answers => r := Ok(uploadId);
        case Refuses(_) => r := Err(StorageError);
        case Breaks(_) => r := Err(Broken);
      }
    }

    method PutPart(uploadId: nat, number: nat, bytes: Bytes) returns (etag: Option<nat>)
      modifies this
      ensures var after := OS.PutPart(old(State()), uploadId, number, bytes);
              && (etag.Some? <==> after.Some?)
              && State() == (if after.Some? then after.value else old(State()))
              && (etag.Some? ==> etag.value == old(nextTag))
    {
      if uploadId !in uploads {
        return None;
      }
      etag := Some(nextTag);
      var upload := uploads[uploadId];
      uploads := uploads[uploadId := upload.(parts := upload.parts[number := OS.Part(bytes, nextTag)])];
      nextTag := nextTag + 1;
    }

    /** The size of what was stored. */
    method CompleteMultipart(key: OS.Key, uploadId: nat, etags: seq<OS.Confirmed>, fate: OS.StoreFate)
      returns (r: Result<nat, Raised>)
      modifies this
      ensures var done := OS.Complete(old(State()), key, uploadId, etags);
              && (done.None? ==> State() == old(State()) && r == Err(StorageError))
              && (done.Some? ==>
                    && State() == (if OS.Applied(fate) then done.value else old(State()))
                    && (r.Ok? <==> fate.Answers?)
                    && (r.Ok? ==> key in objects && r.value == |objects[key]|)
                    && (r.Err? ==> Outcome(fate) == Err(r.error)))
    {
      if uploadId !in uploads || uploads[uploadId].key != key || etags == [] {
        return Err(StorageError);
      }
      var whole := OS.Assemble(uploads[uploadId].parts, OS.SortByNumber(etags));
      if whole.None? {
        return Err(StorageError);
      }
      if OS.Applied(fate) {
        objects := objects[key := whole.value];
        uploads := uploads - {uploadId};
      }
      match fate {
        case Answers => r := Ok(|whole.value|);
        case Refuses(_) => r := Err(StorageError);
        case Breaks(_) => r := Err(Broken);
      }
    }

    method AbortMultipart(uploadId: nat, fate: OS.StoreFate) returns (r: Result<(), Raised>)
      modifies this
      ensures var ended := OS.AbortFate(old(State()), uploadId, fate);
              && State() == (if OS.Applied(ended) then OS.Abort(old(State()), uploadId) else old(State()))
              && r == Outcome(ended)
    {
      if uploadId !in uploads && fate.Answers? {
        return Err(StorageError);
      }
      if OS.Applied(fate) {
        uploads := uploads - {uploadId};
      }
      r := Outcome(fate);
    }

    method Delete(key: OS.Key, fate: OS.StoreFate) returns (r: Result<(), Raised>)
      modifies this
      ensures State() == if OS.Applied(fate) then OS.Delete(old(State()), key) else old(State())
      ensures r == Outcome(fate)
    {
      if OS.Applied(fate) {
        objects := objects - {key};
      }
      r := Outcome(fate);
    }
  }

  // ------------------------------------------------------------ services on one meeting

  method Advance(meeting: Meeting, session: Session, to: M.Status, now: int, reason: Option<M.Code>) returns (ok: bool)
    modifies meeting, session
    ensures var moved := M.Advance(old(DraftOf(meeting, session)), to, now, reason);
            && (ok <==> moved.Some?)
            && DraftOf(meeting, session) == (if ok then moved.value else old(DraftOf(meeting, session)))
  {
    if to !in M.AllowedFrom(meeting.status) {
      return false;
    }
    var previous := meeting.status;
    meeting.status := to;
    if to == M.Completed {
      meeting.completedAt := Some(now);
    }
    if to == M.Failed {
      meeting.failedReason := reason;
    }
    if to == M.AudioPurged {
      meeting.purgedAt := Some(now);
      meeting.audioKey := None;
    }
    session.added := session.added + [M.Transition(meeting.id, previous, to)];
    ok := true;
  }

  method StartUpload(env: M.Env, meeting: Meeting, session: Session, storage: StorageProvider, caller: M.User,
                     declared: M.Declared, now: int, fate: OS.StoreFate)
    returns (r: Result<OS.Ticket, M.Code>)
    requires env.partSize > 0
    modifies meeting, session, storage
    ensures var a := M.StartUpload(env, old(DraftOf(meeting, session)), caller, declared, now, old(storage.State()), fate);
            && storage.State() == a.store
            && (r.Ok? <==> a.result.Ok?)
            && (r.Ok? ==> (DraftOf(meeting, session), r.value) == a.result.value)
            && (r.Err? ==> a.result == Err(r.error))
  {
    hide M.Advance, M.AllowedFrom, PartCountFor, OS.StartMultipart;
    if meeting.createdBy != caller.id {
      return Err(M.Forbidden);
    }
    meeting.audioSha := Some(declared.sha);
    meeting.audioBytes := Some(declared.size);
    meeting.duration := declared.duration;
    meeting.paused := declared.paused;
    var key := OS.AudioKey(meeting.organization, meeting.id);
    meeting.audioKey := Some(key);
    var moved := Advance(meeting, session, M.Uploading, now, None);
    if !moved {
      return Err(M.IllegalTransition);
    }
    var count := PartCountFor(declared.size, env.partSize);
    if count.Err? {
      return Err(M.StorageUnavailable);
    }
    var upload := storage.StartMultipart(key, fate);
    if upload.Err? {
      return Err(if upload.error == StorageError then M.StorageUnavailable else M.Uncaught);
    }
    meeting.uploadId := Some(upload.value);
    r := Ok(OS.Ticket(upload.value, env.partSize, count.value));
  }

  method Finalize(meeting: Meeting, session: Session, storage: StorageProvider, org: M.Organization, caller: M.User,
                  uploadId: nat, parts: seq<OS.Confirmed>, now: int, fate: OS.StoreFate, deletion: OS.StoreFate)
    returns (r: Result<(), M.Code>)
    modifies meeting, session, storage
    ensures var a := M.Finalize(old(DraftOf(meeting, session)), org, caller, uploadId, parts, now,
                                old(storage.State()), fate, deletion);
            && storage.State() == a.store
            && (r.Ok? <==> a.result.Ok?)
            && (r.Ok? ==> DraftOf(meeting, session) == a.result.value)
            && (r.Err? ==> a.result == Err(r.error))
  {
    hide M.Advance, M.AllowedFrom, OS.Complete, OS.Delete, M.CanAfford;
    if meeting.createdBy != caller.id {
      return Err(M.Forbidden);
    }
    if meeting.audioKey.None? {
      return Err(M.UploadNotStarted);
    }
    var stored := storage.CompleteMultipart(meeting.audioKey.value, uploadId, parts, fate);
    if stored.Err? {
      return Err(if stored.error == StorageError then M.UploadIncomplete else M.Uncaught);
    }
    if meeting.audioBytes.Some? && stored.value != meeting.audioBytes.value {
      var dropped := storage.Delete(meeting.audioKey.value, deletion);
      return Err(if dropped.Ok? then M.SizeMismatch else M.Uncaught);
    }
    meeting.audioBytes := Some(stored.value);
    meeting.uploadId := None;
    meeting.purgeAt := Some(now + org.retention);
    var destination := if M.CanAfford(org, meeting.duration) then M.Queued else M.QuotaHold;
    var moved := Advance(meeting, session, destination, now, None);
    r := if moved then Ok(()) else Err(M.IllegalTransition);
  }

  method Abandon(meeting: Meeting, session: Session, storage: StorageProvider, caller: M.User, now: int, fate: OS.StoreFate)
    returns (r: Result<(), M.Code>)
    modifies meeting, session, storage
    ensures var a := M.Abandon(old(DraftOf(meeting, session)), caller, now, old(storage.State()), fate);
            && storage.State() == a.store
            && (r.Ok? <==> a.result.Ok?)
            && (r.Ok? ==> DraftOf(meeting, session) == a.result.value)
            && (r.Err? ==> a.result == Err(r.error))
  {
    if meeting.createdBy != caller.id {
      return Err(M.Forbidden);
    }
    if meeting.audioKey.Some? && meeting.uploadId.Some? {
      var aborted := storage.AbortMultipart(meeting.uploadId.value, fate);
      if aborted == Err(Broken) {
        return Err(M.Uncaught);
      }
      if aborted.Ok? {
        meeting.uploadId := None;
      }
    }
    var moved := Advance(meeting, session, M.Cancelled, now, None);
    r := if moved then Ok(()) else Err(M.IllegalTransition);
  }

  /** The stage to dispatch: whether the transcript survived. */
  method Retry(meeting: Meeting, session: Session, transcribed: bool, caller: M.User, now: int)
    returns (r: Result<bool, M.Code>)
    modifies meeting, session
    ensures var a := M.RetryMeeting(old(DraftOf(meeting, session)), transcribed, caller, now);
            && (r.Ok? <==> a.Ok?)
            && (r.Ok? ==> r.value == transcribed && DraftOf(meeting, session) == a.value)
            && (r.Err? ==> a == Err(r.error))
  {
    if !M.MayAdminister(meeting.Row(), caller) {
      return Err(M.Forbidden);
    }
    if meeting.status != M.Failed {
      return Err(M.NotFailed);
    }
    var destination;
    if transcribed {
      destination := M.Analyzing;
    } else if meeting.audioKey.None? {
      return Err(M.AudioGone);
    } else {
      destination := M.Queued;
    }
    meeting.failedReason := None;
    var moved := Advance(meeting, session, destination, now, None);
    r := if moved then Ok(transcribed) else Err(M.IllegalTransition);
  }

  // ------------------------------------------------------------ retention

  /** True exactly when nothing of the meeting is left in the store. */
  method DropRecording(meeting: Meeting, storage: StorageProvider, abortion: OS.StoreFate, deletion: OS.StoreFate)
    returns (r: Result<bool, M.Code>)
    modifies meeting, storage
    ensures var (dropped, after) := M.DropRecording(old(meeting.Row()), old(storage.State()), abortion, deletion);
            && storage.State() == after
            && (r.Err? <==> dropped.Exploded?) && (r.Err? ==> r.error == M.Uncaught)
            && (r.Ok? ==> dropped == if r.value then M.Clean(meeting.Row()) else M.Dirty(meeting.Row()))
  {
    if meeting.uploadId.Some? && meeting.audioKey.Some? {
      var aborted := storage.AbortMultipart(meeting.uploadId.value, abortion);
      if aborted == Err(Broken) {
        return Err(M.Uncaught);
      }
      if aborted.Err? {
        return Ok(false);
      }
      meeting.uploadId := None;
    }
    if meeting.audioKey.Some? {
      var deleted := storage.Delete(meeting.audioKey.value, deletion);
      if deleted == Err(Broken) {
        return Err(M.Uncaught);
      }
      if deleted.Err? {
        return Ok(false);
      }
    }
    r := Ok(true);
  }

  /** One due meeting of the sweep: whether it was purged. */
  method SweepOne(meeting: Meeting, session: Session, storage: StorageProvider, now: int,
                  fates: (OS.StoreFate, OS.StoreFate))
    returns (r: Result<bool, M.Code>)
    requires meeting.status in {M.Published, M.Failed, M.Cancelled, M.Deleted}
    modifies meeting, session, storage
    ensures var a := M.PurgeOne(old(meeting.Row()), now, old(storage.State()), fates);
            && storage.State() == a.store
            && (r.Ok? <==> a.result.Ok?)
            && (r.Ok? ==>
                  && a.result.value.purged == r.value
                  && meeting.Row() == a.result.value.draft.row
                  && session.added == old(session.added) + a.result.value.draft.trail)
            && (r.Err? ==> a.result == Err(r.error))
  {
    var clean := DropRecording(meeting, storage, fates.0, fates.1);
    if clean.Err? {
      return Err(clean.error);
    }
    if !clean.value {
      assert session.added == session.added + [];
      return Ok(false);
    }
    if meeting.status == M.Published {
      var moved := Advance(meeting, session, M.AudioPurged, now, None);
      return if moved then Ok(true) else Err(M.IllegalTransition);
    }
    meeting.audioKey := None;
    meeting.purgedAt := Some(now);
    assert session.added == session.added + [];
    r := Ok(true);
  }

  /** Different meetings are different objects. */
  ghost predicate Apart(meetings: map<nat, Meeting>) {
    forall m, n :: m in meetings && n in meetings && m != n ==> meetings[m] != meetings[n]
  }

  ghost function Rows(meetings: map<nat, Meeting>): (rows: map<nat, M.Row>)
    reads meetings.Values
    ensures rows.Keys == meetings.Keys
  {
    map m | m in meetings :: meetings[m].Row()
  }

  /** One meeting of the table is swept; the others are as they were. */
  method SweepInto(meetings: map<nat, Meeting>, m: nat, session: Session, storage: StorageProvider, now: int,
                   fates: (OS.StoreFate, OS.StoreFate))
    returns (r: Result<bool, M.Code>)
    requires Apart(meetings) && m in meetings
    requires meetings[m].status in {M.Published, M.Failed, M.Cancelled, M.Deleted}
    modifies meetings.Values, session, storage
    ensures var a := M.PurgeOne(old(Rows(meetings))[m], now, old(storage.State()), fates);
            && storage.State() == a.store
            && (r.Ok? <==> a.result.Ok?)
            && (r.Ok? ==>
                  && a.result.value.purged == r.value
                  && Rows(meetings) == old(Rows(meetings))[m := a.result.value.draft.row]
                  && session.added == old(session.added) + a.result.value.draft.trail)
            && (r.Err? ==> a.result == Err(r.error))
  {
    hide M.PurgeOne;
    r := SweepOne(meetings[m], session, storage, now, fates);
    assert forall n :: n in meetings && n != m ==> meetings[n].Row() == old(meetings[n].Row());
  }

  /** The sweep over one organization. `due` is what the query answered; `db` is the database
      those rows were read from. */
  method PurgeDueAudio(meetings: map<nat, Meeting>, session: Session, storage: StorageProvider, due: seq<nat>,
                       now: int, fates: nat -> (OS.StoreFate, OS.StoreFate), ghost db: M.Db)
    returns (r: Result<seq<nat>, M.Code>)
    requires Apart(meetings) && db.rows == Rows(meetings) && session.added == [] && M.ListsDue(db, due, now)
    modifies meetings.Values, session, storage
    ensures var a := M.PurgeAll(db, due, now, old(storage.State()), fates);
            && storage.State() == a.store
            && (r.Ok? <==> a.result.Ok?)
            && (r.Ok? ==>
                  && a.result.value.1 == r.value
                  && a.result.value.0 == db.(rows := Rows(meetings), audit := db.audit + session.added))
            && (r.Err? ==> a.result == Err(r.error))
  {
    hide M.PurgeAll, M.PurgeOne, M.ListsDue, M.DueForPurge, Rows, Apart;
    DueAreThere(db, due, now);
    var purged: seq<nat> := [];
    ghost var current := db;
    ghost var whole := M.PurgeAll(db, due, now, storage.State(), fates);
    var i := 0;
    assert db.audit + [] == db.audit && due[0..] == due;
    while i < |due|
      invariant 0 <= i <= |due|
      invariant current == db.(rows := Rows(meetings), audit := db.audit + session.added)
      invariant current.rows.Keys == db.rows.Keys == meetings.Keys
      invariant forall j :: i <= j < |due| ==> current.rows[due[j]] == db.rows[due[j]]
      invariant Prefixed(whole, purged, M.PurgeAll(current, due[i..], now, storage.State(), fates))
      invariant Apart(meetings)
    {
      var m := due[i];
      assert m in db.rows && M.DueForPurge(db.rows[m], now);
      assert current.rows[m] == meetings[m].Row() by { RowAt(meetings, m); }
      SweepStep(current, due, i, now, storage.State(), fates, whole, purged);
      ghost var swept := M.PurgeOne(current.rows[m], now, storage.State(), fates(m)).result;
      ghost var added := session.added;
      var one := SweepInto(meetings, m, session, storage, now, fates(m));
      if one.Err? {
        return Err(one.error);
      }
      assert db.audit + session.added == db.audit + added + swept.value.draft.trail;
      current := M.Save(current, m, swept.value.draft);
      if one.value {
        purged := purged + [m];
      }
      i := i + 1;
    }
    NothingDue(current, due[i..], now, storage.State(), fates);
    r := Ok(purged);
  }

  /** Each due meeting is there once, in a state the sweep looks at. */
  lemma DueAreThere(db: M.Db, due: seq<nat>, now: int)
    requires M.ListsDue(db, due, now)
    ensures forall i :: 0 <= i < |due| ==>
              && due[i] in db.rows && M.DueForPurge(db.rows[due[i]], now)
              && db.rows[due[i]].status in {M.Published, M.Failed, M.Cancelled, M.Deleted}
    ensures forall i, j :: 0 <= i < j < |due| ==> due[i] != due[j]
  {
  }

  lemma RowAt(meetings: map<nat, Meeting>, m: nat)
    requires m in meetings
    ensures m in Rows(meetings) && Rows(meetings)[m] == meetings[m].Row()
  {
  }

  lemma NothingDue(db: M.Db, due: seq<nat>, now: int, store: OS.StoreState, fates: nat -> (OS.StoreFate, OS.StoreFate))
    requires due == []
    ensures M.PurgeAll(db, due, now, store, fates) == M.Answer(store, Ok((db, [])))
  {
  }

  /** One turn of the sweep. */
  lemma SweepStep(db: M.Db, due: seq<nat>, i: nat, now: int, store: OS.StoreState,
                  fates: nat -> (OS.StoreFate, OS.StoreFate), whole: M.Answer<(M.Db, seq<nat>)>, purged: seq<nat>)
    requires i < |due| && due[i] in db.rows && M.DueForPurge(db.rows[due[i]], now)
    requires Prefixed(whole, purged, M.PurgeAll(db, due[i..], now, store, fates))
    ensures var one := M.PurgeOne(db.rows[due[i]], now, store, fates(due[i]));
            && (one.result.Err? ==> whole == M.Answer(one.store, Err(one.result.error)))
            && (one.result.Ok? ==>
                  Prefixed(whole, purged + (if one.result.value.purged then [due[i]] else []),
                           M.PurgeAll(M.Save(db, due[i], one.result.value.draft), due[i + 1..], now, one.store, fates)))
  {
    hide M.PurgeOne, M.Save;
    assert due[i..][0] == due[i] && due[i..][1..] == due[i + 1..];
    var one := M.PurgeOne(db.rows[due[i]], now, store, fates(due[i]));
    if one.result.Ok? {
      var ids := if one.result.value.purged then [due[i]] else [];
      var rest := M.PurgeAll(M.Save(db, due[i], one.result.value.draft), due[i + 1..], now, one.store, fates);
      if rest.result.Ok? {
        assert purged + ids + rest.result.value.1 == purged + (ids + rest.result.value.1);
      }
    }
  }

  /** What is left to do, and what is done already in front of it. */
  ghost predicate Prefixed(all: M.Answer<(M.Db, seq<nat>)>, purged: seq<nat>, rest: M.Answer<(M.Db, seq<nat>)>) {
    && all.store == rest.store
    && (all.result.Err? <==> rest.result.Err?)
    && (all.result.Err? ==> all.result.error == rest.result.error)
    && (all.result.Ok? ==>
          all.result.value.0 == rest.result.value.0 && all.result.value.1 == purged + rest.result.value.1)
  }

  // ------------------------------------------------------------ the books

  /** The organization's row and the tables a worker adds to. */
  class Books {
    const quota: Option<nat>
    var consumed: nat
    var ledger: seq<M.Entry>
    var reports: multiset<nat>
    var transcripts: multiset<nat>

    constructor (db: M.Db)
      ensures Holds(db) && quota == db.org.quota
    {
      quota, consumed, ledger := db.org.quota, db.org.consumed, db.ledger;
      reports, transcripts := db.reports, db.transcripts;
    }

    predicate Holds(db: M.Db)
      reads this
    {
      consumed == db.org.consumed && ledger == db.ledger && reports == db.reports && transcripts == db.transcripts
    }

    /** Refused without a trace, or added and the new total answered. Only a caller who allows
        it may overshoot the quota. */
    method Consume(seconds: nat, allowOvershoot: bool) returns (total: Option<nat>)
      modifies this`consumed
      ensures total.Some? <==> allowOvershoot || quota.None? || old(consumed) + seconds <= quota.value
      ensures consumed == if total.Some? then old(consumed) + seconds else old(consumed)
      ensures total.Some? ==> total.value == consumed
    {
      if !allowOvershoot && quota.Some? && consumed + seconds > quota.value {
        return None;
      }
      consumed := consumed + seconds;
      total := Some(consumed);
    }
  }

  // ------------------------------------------------------------ the worker stages

  method Fail(meeting: Meeting, session: Session, now: int, code: M.Code)
    modifies meeting, session
    ensures M.Commits(DraftOf(meeting, session), false, Some(code)) == M.MarkFailed(old(DraftOf(meeting, session)), now, code)
  {
    var _ := Advance(meeting, session, M.Failed, now, Some(code));
  }

  /** What a stage ends with: the failure code it recorded, if any, or the exception it raised. */
  method TranscribeMeeting(env: M.Env, meeting: Meeting, session: Session, storage: StorageProvider, books: Books,
                           now: int, reachable: bool, heard: M.Heard)
    returns (r: Result<Option<M.Code>, M.Code>)
    modifies meeting, session, books`transcripts
    ensures var staged := M.TranscribeStage(env, old(DraftOf(meeting, session)), now, old(storage.State()), reachable, heard);
            && (r.Err? <==> staged.Raises?)
            && (r.Err? ==> r.error == staged.code)
            && (r.Ok? ==> staged == M.Commits(DraftOf(meeting, session), r.value.None?, r.value))
            && (r == Ok(None) ==> books.transcripts == old(books.transcripts) + multiset{meeting.id})
            && (r.Ok? && r.value.Some? ==> books.transcripts == old(books.transcripts))
  {
    hide M.AllowedFrom, M.VerifyAudio;
    if meeting.audioKey.None? {
      Fail(meeting, session, now, M.NoAudio);
      return Ok(Some(M.NoAudio));
    }
    var moved := Advance(meeting, session, M.Transcribing, now, None);
    if !moved {
      return Err(M.IllegalTransition);
    }
    var refused := M.VerifyAudio(env, storage.State(), meeting.audioKey.value, meeting.audioSha, reachable);
    if refused.Some? {
      Fail(meeting, session, now, refused.value);
      return Ok(Some(refused.value));
    }
    if heard.RouterFails? {
      return Err(M.Uncaught);
    }
    if heard.fallback {
      moved := Advance(meeting, session, M.FallbackStt, now, None);
      if !moved {
        return Err(M.IllegalTransition);
      }
    }
    books.transcripts := books.transcripts + multiset{meeting.id};
    if heard.duration != 0 {
      meeting.duration := heard.duration;
    }
    moved := Advance(meeting, session, M.Analyzing, now, None);
    r := if moved then Ok(None) else Err(M.IllegalTransition);
  }

  /** The report, the charge, the ledger entry and the publication, in one transaction. */
  method AnalyseMeeting(meeting: Meeting, session: Session, books: Books, now: int, extracted: M.Extracted, ghost db: M.Db)
    returns (r: Result<Option<M.Code>, M.Code>)
    requires books.Holds(db)
    modifies meeting, session, books
    ensures var staged := M.AnalyseStage(old(DraftOf(meeting, session)), now, db.transcripts[meeting.id] > 0, extracted);
            && (r.Err? <==> staged.Raises?)
            && (r.Err? ==> r.error == staged.code)
            && (r.Ok? ==> staged == M.Commits(DraftOf(meeting, session), r.value.None?, r.value))
            && (r == Ok(None) ==> books.Holds(M.Charge(db, meeting.id, old(meeting.duration))))
            && (r.Ok? && r.value.Some? ==> books.Holds(db))
  {
    if books.transcripts[meeting.id] == 0 {
      Fail(meeting, session, now, M.NoTranscript);
      return Ok(Some(M.NoTranscript));
    }
    if extracted.ExtractionRaises? {
      return Err(M.Uncaught);
    }
    if extracted.ExtractionFails? {
      Fail(meeting, session, now, M.Extraction(extracted.code));
      return Ok(Some(M.Extraction(extracted.code)));
    }
    books.reports := books.reports + multiset{meeting.id};
    var moved := Advance(meeting, session, M.Completed, now, None);
    if !moved {
      return Err(M.IllegalTransition);
    }
    var billed := meeting.duration;
    var total := books.Consume(billed, true);
    books.ledger := books.ledger + [M.Entry(meeting.id, billed)];
    moved := Advance(meeting, session, M.Published, now, None);
    r := if moved then Ok(None) else Err(M.IllegalTransition);
  }
}
