/** The server's meeting life cycle as functions: the transition table, the services that
    act on one meeting, the two worker stages, and the transactions that run them.
    `MeetingServices` holds the same services in the step-by-step form of the source and
    proves each one equal to its function here. */
module Meetings {
  import opened Prelude
  import opened Assembly
  import opened ObjectStore

  // ------------------------------------------------------------ the table

  datatype Status =
    | Created | Uploading | QuotaHold | Queued | Transcribing | FallbackStt | Analyzing
    | Completed | Published | AudioPurged | Failed | Cancelled | Deleted

  /** The successors of a state; CANCELLED and DELETED have none. */
  function AllowedFrom(status: Status): set<Status> {
    match status
    case Created => {Uploading, Cancelled, Deleted}
    case Uploading => {Queued, QuotaHold, Cancelled, Deleted}
    case QuotaHold => {Queued, Cancelled, Deleted}
    case Queued => {Transcribing, Failed, Deleted}
    case Transcribing => {Analyzing, FallbackStt, Failed, Deleted}
    case FallbackStt => {Analyzing, Failed, Deleted}
    case Analyzing => {Completed, Failed, Deleted}
    case Completed => {Published, Deleted}
    case Published => {AudioPurged, Deleted}
    case AudioPurged => {Deleted}
    case Failed => {Queued, Analyzing, Deleted}
    case Cancelled => {}
    case Deleted => {}
  }

  datatype Code =
    | NotFound | Forbidden | IllegalTransition | StorageUnavailable | UploadNotStarted
    | UploadIncomplete | SizeMismatch | NotFailed | AudioGone
    | NoAudio | AudioUnreachable | ChecksumMismatch | NoTranscript | Extraction(code: nat)
    | UniqueViolation | Uncaught

  // ------------------------------------------------------------ rows

  datatype User = User(id: nat, administrator: bool)

  datatype Row = Row(
    id: nat, organization: nat, createdBy: nat, isPrivate: bool, status: Status,
    audioKey: Option<Key>, uploadId: Option<nat>, audioBytes: Option<nat>, audioSha: Option<nat>,
    duration: nat, paused: nat,
    purgeAt: Option<int>, purgedAt: Option<int>, completedAt: Option<int>,
    failedReason: Option<Code>)

  /** One `meeting.transition` entry of the audit log. */
  datatype Transition = Transition(meeting: nat, source: Status, target: Status)

  /** A meeting as one session sees it: the pending row and the entries it will add. */
  datatype Draft = Draft(row: Row, trail: seq<Transition>)

  datatype Organization = Organization(id: nat, quota: Option<nat>, consumed: nat, retention: nat)

  /** What is declared at `finalize-local`, before a byte moves. */
  datatype Declared = Declared(size: nat, sha: nat, duration: nat, paused: nat)

  /** Fixed for a run: the store's part size and the digest function. */
  datatype Env = Env(partSize: nat, hash: Bytes -> nat)

  /** What a service answers: the store it leaves behind and either a value or a refusal,
      upon which the session's pending changes are dropped. */
  datatype Answer<+T> = Answer(store: StoreState, result: Result<T, Code>)

  // ------------------------------------------------------------ services on one meeting

  /** The draft one transition further, with the timestamps that go with it, or `None`. */
  function Advance(d: Draft, to: Status, now: int, reason: Option<Code>): Option<Draft> {
    if to !in AllowedFrom(d.row.status) then None
    else
      var row := d.row.(status := to);
      var row := if to == Completed then row.(completedAt := Some(now)) else row;
      var row := if to == Failed then row.(failedReason := reason) else row;
      var row := if to == AudioPurged then row.(purgedAt := Some(now), audioKey := None) else row;
      Some(Draft(row, d.trail + [Transition(d.row.id, d.row.status, to)]))
  }

  predicate MayAdminister(row: Row, caller: User) {
    row.createdBy == caller.id || caller.administrator
  }

  predicate MayRead(row: Row, caller: User) {
    !row.isPrivate || MayAdminister(row, caller)
  }

  function StartUpload(
      env: Env, d: Draft, caller: User, f: Declared, now: int, store: StoreState, fate: StoreFate)
      : Answer<(Draft, Ticket)>
    requires env.partSize > 0
  {
    if d.row.createdBy != caller.id then Answer(store, Err(Forbidden))
    else
      var key := AudioKey(d.row.organization, d.row.id);
      var filled := d.row.(audioSha := Some(f.sha), audioBytes := Some(f.size),
                           duration := f.duration, paused := f.paused, audioKey := Some(key));
      var moved := Advance(d.(row := filled), Uploading, now, None);
      if moved.None? then Answer(store, Err(IllegalTransition))
      else
        var count := PartCountFor(f.size, env.partSize);
        if count.Err? then Answer(store, Err(StorageUnavailable))
        else
          var after := if Applied(fate) then StartMultipart(store, key) else store;
          match fate
          case Answers =>
            var started := moved.value.row.(uploadId := Some(store.nextUpload));
            Answer(after, Ok((moved.value.(row := started),
                              Ticket(store.nextUpload, env.partSize, count.value))))
          case Refuses(_) => Answer(after, Err(StorageUnavailable))
          case Breaks(_) => Answer(after, Err(Uncaught))
  }

  /** New signatures for the slots of the open upload; the row stays as it is. */
  function ResumeUpload(env: Env, row: Row, caller: User, fate: StoreFate): Result<Ticket, Code>
    requires env.partSize > 0
  {
    if row.createdBy != caller.id then Err(Forbidden)
    else if row.status != Uploading then Err(UploadNotStarted)
    else if row.uploadId.None? || row.audioKey.None? || row.audioBytes.None? || row.audioBytes.value == 0
    then Err(UploadNotStarted)
    else
      var count := PartCountFor(row.audioBytes.value, env.partSize);
      if count.Err? || fate.Refuses? then Err(StorageUnavailable)
      else if fate.Breaks? then Err(Uncaught)
      else Ok(Ticket(row.uploadId.value, env.partSize, count.value))
  }

  function Remaining(org: Organization): Option<nat> {
    if org.quota.None? then None else Some(Max(org.quota.value - org.consumed, 0))
  }

  predicate CanAfford(org: Organization, seconds: nat) {
    Remaining(org).None? || seconds <= Remaining(org).value
  }

  function Finalize(
      d: Draft, org: Organization, caller: User, uploadId: nat, tags: seq<Confirmed>, now: int,
      store: StoreState, fate: StoreFate, deletion: StoreFate): Answer<Draft>
  {
    if d.row.createdBy != caller.id then Answer(store, Err(Forbidden))
    else if d.row.audioKey.None? then Answer(store, Err(UploadNotStarted))
    else
      var key := d.row.audioKey.value;
      var completed := Complete(store, key, uploadId, tags);
      if completed.None? then Answer(store, Err(UploadIncomplete))
      else
        var after := if Applied(fate) then completed.value else store;
        match fate
        case Refuses(_) => Answer(after, Err(UploadIncomplete))
        case Breaks(_) => Answer(after, Err(Uncaught))
        case Answers =>
          var size := |after.objects[key]|;
          if d.row.audioBytes.Some? && size != d.row.audioBytes.value then
            Answer(if Applied(deletion) then Delete(after, key) else after,
                   Err(if deletion.Answers? then SizeMismatch else Uncaught))
          else
            var row := d.row.(audioBytes := Some(size), uploadId := None,
                              purgeAt := Some(now + org.retention));
            var to := if CanAfford(org, row.duration) then Queued else QuotaHold;
            var moved := Advance(d.(row := row), to, now, None);
            Answer(after, if moved.None? then Err(IllegalTransition) else Ok(moved.value))
  }

  /** Cancelled, whatever becomes of the abort; only an answered one clears the upload. */
  function Abandon(d: Draft, caller: User, now: int, store: StoreState, fate: StoreFate): Answer<Draft> {
    if d.row.createdBy != caller.id then Answer(store, Err(Forbidden))
    else
      var open := d.row.audioKey.Some? && d.row.uploadId.Some?;
      var fate := if open then AbortFate(store, d.row.uploadId.value, fate) else fate;
      var after := if open && Applied(fate) then Abort(store, d.row.uploadId.value) else store;
      if open && fate.Breaks? then Answer(after, Err(Uncaught))
      else
        var row := if open && fate.Answers? then d.row.(uploadId := None) else d.row;
        var moved := Advance(d.(row := row), Cancelled, now, None);
        Answer(after, if moved.None? then Err(IllegalTransition) else Ok(moved.value))
  }

  function RemoveMeeting(d: Draft, caller: User, now: int): Result<Draft, Code> {
    if !MayAdminister(d.row, caller) then Err(Forbidden)
    else
      var moved := Advance(d, Deleted, now, None);
      if moved.None? then Err(IllegalTransition) else Ok(moved.value)
  }

  /** Back to analysis if there is a transcript, otherwise to the queue if there is audio. */
  function RetryMeeting(d: Draft, transcribed: bool, caller: User, now: int): Result<Draft, Code> {
    if !MayAdminister(d.row, caller) then Err(Forbidden)
    else if d.row.status != Failed then Err(NotFailed)
    else if !transcribed && d.row.audioKey.None? then Err(AudioGone)
    else
      var moved := Advance(d.(row := d.row.(failedReason := None)),
                           if transcribed then Analyzing else Queued, now, None);
      if moved.None? then Err(IllegalTransition) else Ok(moved.value)
  }

  // ------------------------------------------------------------ retention

  datatype Dropped = Clean(row: Row) | Dirty(row: Row) | Exploded

  /** Abort the open upload, then delete the object; the row keeps what could not be removed. */
  function DropRecording(row: Row, store: StoreState, abortion: StoreFate, deletion: StoreFate)
      : (r: (Dropped, StoreState))
  {
    var open := row.audioKey.Some? && row.uploadId.Some?;
    var abortion := if open then AbortFate(store, row.uploadId.value, abortion) else abortion;
    var store1 := if open && Applied(abortion) then Abort(store, row.uploadId.value) else store;
    if open && abortion.Breaks? then (Exploded, store1)
    else if open && abortion.Refuses? then (Dirty(row), store1)
    else
      var row1 := if open then row.(uploadId := None) else row;
      if row1.audioKey.None? then (Clean(row1), store1)
      else
        var store2 := if Applied(deletion) then Delete(store1, row1.audioKey.value) else store1;
        match deletion
        case Answers => (Clean(row1), store2)
        case Refuses(_) => (Dirty(row1), store2)
        case Breaks(_) => (Exploded, store2)
  }

  predicate DueForPurge(row: Row, now: int) {
    && ((row.status in {Published, Failed} && row.purgeAt.Some? && row.purgeAt.value <= now)
        || row.status in {Cancelled, Deleted})
    && (row.audioKey.Some? || row.uploadId.Some?)
  }

  datatype Swept = Swept(draft: Draft, purged: bool)

  /** What the sweep does to one due meeting; `Err` is an exception that ends the sweep. */
  function PurgeOne(row: Row, now: int, store: StoreState, fates: (StoreFate, StoreFate))
      : Answer<Swept>
    requires row.status in {Published, Failed, Cancelled, Deleted}
  {
    var (dropped, after) := DropRecording(row, store, fates.0, fates.1);
    match dropped
    case Exploded => Answer(after, Err(Uncaught))
    case Dirty(r) => Answer(after, Ok(Swept(Draft(r, []), false)))
    case Clean(r) =>
      if r.status == Published then
        var moved := Advance(Draft(r, []), AudioPurged, now, None);
        if moved.None? then Answer(after, Err(IllegalTransition))
        else Answer(after, Ok(Swept(moved.value, true)))
      else
        Answer(after, Ok(Swept(Draft(r.(audioKey := None, purgedAt := Some(now)), []), true)))
  }

  // ------------------------------------------------------------ the two worker stages

  /** What the supplier chain answered, if it did. */
  datatype Heard = Heard(duration: nat, fallback: bool) | RouterFails

  /** A stage either commits its draft, with or without a new row beside it, or raises. */
  datatype Staged = Commits(draft: Draft, wrote: bool, failure: Option<Code>) | Raises(code: Code)

  function VerifyAudio(env: Env, store: StoreState, key: Key, sha: Option<nat>, reachable: bool): Option<Code> {
    if !reachable || key !in store.objects then Some(AudioUnreachable)
    else if sha.Some? && env.hash(store.objects[key]) != sha.value then Some(ChecksumMismatch)
    else None
  }

  /** FAILED with this reason where the table allows it, otherwise the draft as it was. */
  function MarkFailed(d: Draft, now: int, code: Code): Staged {
    var moved := Advance(d, Failed, now, Some(code));
    Commits(if moved.Some? then moved.value else d, false, Some(code))
  }

  function TranscribeStage(
      env: Env, d: Draft, now: int, store: StoreState, reachable: bool, heard: Heard): Staged
  {
    if d.row.audioKey.None? then MarkFailed(d, now, NoAudio)
    else
      var d1 := Advance(d, Transcribing, now, None);
      if d1.None? then Raises(IllegalTransition)
      else
        var refused := VerifyAudio(env, store, d.row.audioKey.value, d.row.audioSha, reachable);
        if refused.Some? then MarkFailed(d1.value, now, refused.value)
        else if heard.RouterFails? then Raises(Uncaught)
        else
          var d2 := if heard.fallback then Advance(d1.value, FallbackStt, now, None) else d1;
          if d2.None? then Raises(IllegalTransition)
          else
            var row := d2.value.row.(duration := if heard.duration != 0 then heard.duration
                                                 else d2.value.row.duration);
            var d3 := Advance(d2.value.(row := row), Analyzing, now, None);
            if d3.None? then Raises(IllegalTransition) else Commits(d3.value, true, None)
  }

  datatype Extracted = Report | ExtractionFails(code: nat) | ExtractionRaises

  function AnalyseStage(d: Draft, now: int, transcribed: bool, extracted: Extracted): Staged {
    if !transcribed then MarkFailed(d, now, NoTranscript)
    else if extracted.ExtractionRaises? then Raises(Uncaught)
    else if extracted.ExtractionFails? then MarkFailed(d, now, Extraction(extracted.code))
    else
      var d1 := Advance(d, Completed, now, None);
      if d1.None? then Raises(IllegalTransition)
      else
        var d2 := Advance(d1.value, Published, now, None);
        if d2.None? then Raises(IllegalTransition) else Commits(d2.value, true, None)
  }

  // ------------------------------------------------------------ the database and its transactions

  datatype Entry = Entry(meeting: nat, seconds: nat)

  /** One organization's rows. Transcripts and reports are counted per meeting, so that the
      two unique constraints say something. */
  datatype Db = Db(
    org: Organization, rows: map<nat, Row>, transcripts: multiset<nat>, reports: multiset<nat>,
    ledger: seq<Entry>, audit: seq<Transition>)

  datatype Server = Server(db: Db, store: StoreState)

  /** `transcripts_meeting_unique` and `reports_meeting_unique`. */
  predicate Unique(db: Db) {
    && (forall m :: m in db.transcripts ==> db.transcripts[m] <= 1)
    && (forall m :: m in db.reports ==> db.reports[m] <= 1)
  }

  datatype Reply = Done | Skipped | MarkedFailed(code: Code) | Opened(ticket: Ticket) | Purged(ids: seq<nat>)

  datatype Outcome = Outcome(server: Server, reply: Result<Reply, Code>)

  /** The transaction ends: everything is kept, or only what the store did is. */
  function Commit(s: Server, db: Db, store: StoreState, commits: bool, reply: Reply): Outcome {
    if !Unique(db) then Outcome(Server(s.db, store), Err(UniqueViolation))
    else if !commits then Outcome(Server(s.db, store), Err(Uncaught))
    else Outcome(Server(db, store), Ok(reply))
  }

  function Save(db: Db, m: nat, d: Draft): Db {
    db.(rows := db.rows[m := d.row], audit := db.audit + d.trail)
  }

  function Load(db: Db, m: nat): Draft
    requires m in db.rows
  {
    Draft(db.rows[m], [])
  }

  /** `get`: a deleted or unreadable meeting looks like one that does not exist. */
  predicate Visible(db: Db, m: nat, caller: User) {
    m in db.rows && db.rows[m].status != Deleted && MayRead(db.rows[m], caller)
  }

  datatype Event =
    | Declare(m: nat, caller: User, isPrivate: bool)
    | Start(m: nat, caller: User, declared: Declared, fate: StoreFate)
    | Finish(m: nat, caller: User, uploadId: nat, tags: seq<Confirmed>, fate: StoreFate, deletion: StoreFate)
    | Cancel(m: nat, caller: User, fate: StoreFate)
    | Remove(m: nat, caller: User)
    | Retry(m: nat, caller: User)
    | Transcribe(m: nat, reachable: bool, heard: Heard)
    | Analyse(m: nat, extracted: Extracted)
    | Purge(order: seq<nat>, fates: nat -> (StoreFate, StoreFate))
    | Put(m: nat, uploadId: nat, number: nat, bytes: Bytes)

  function Refused(s: Server, store: StoreState, code: Code): Outcome {
    Outcome(Server(s.db, store), Err(code))
  }

  /** One transaction: the event's service on the committed rows, then the commit. */
  function Step(env: Env, s: Server, e: Event, now: int, commits: bool): Outcome
    requires env.partSize > 0
  {
    match e
    case Declare(m, caller, isPrivate) =>
      if m in s.db.rows then Refused(s, s.store, UniqueViolation)
      else
        var row := Row(m, s.db.org.id, caller.id, isPrivate, Created, None, None, None, None,
                       0, 0, None, None, None, None);
        Commit(s, s.db.(rows := s.db.rows[m := row]), s.store, commits, Done)
    case Start(m, caller, declared, fate) =>
      if !Visible(s.db, m, caller) then Refused(s, s.store, NotFound)
      else
        var a := StartUpload(env, Load(s.db, m), caller, declared, now, s.store, fate);
        if a.result.Err? then Refused(s, a.store, a.result.error)
        else Commit(s, Save(s.db, m, a.result.value.0), a.store, commits, Opened(a.result.value.1))
    case Finish(m, caller, uploadId, tags, fate, deletion) =>
      if !Visible(s.db, m, caller) then Refused(s, s.store, NotFound)
      else
        var a := Finalize(Load(s.db, m), s.db.org, caller, uploadId, tags, now, s.store, fate, deletion);
        if a.result.Err? then Refused(s, a.store, a.result.error)
        else Commit(s, Save(s.db, m, a.result.value), a.store, commits, Done)
    case Cancel(m, caller, fate) =>
      if !Visible(s.db, m, caller) then Refused(s, s.store, NotFound)
      else
        var a := Abandon(Load(s.db, m), caller, now, s.store, fate);
        if a.result.Err? then Refused(s, a.store, a.result.error)
        else Commit(s, Save(s.db, m, a.result.value), a.store, commits, Done)
    case Remove(m, caller) =>
      if !Visible(s.db, m, caller) then Refused(s, s.store, NotFound)
      else
        var r := RemoveMeeting(Load(s.db, m), caller, now);
        if r.Err? then Refused(s, s.store, r.error)
        else Commit(s, Save(s.db, m, r.value), s.store, commits, Done)
    case Retry(m, caller) =>
      if !Visible(s.db, m, caller) then Refused(s, s.store, NotFound)
      else
        var r := RetryMeeting(Load(s.db, m), s.db.transcripts[m] > 0, caller, now);
        if r.Err? then Refused(s, s.store, r.error)
        else Commit(s, Save(s.db, m, r.value), s.store, commits, Done)
    case Transcribe(m, reachable, heard) =>
      if m !in s.db.rows || s.db.rows[m].status != Queued then Outcome(s, Ok(Skipped))
      else
        var t := TranscribeStage(env, Load(s.db, m), now, s.store, reachable, heard);
        if t.Raises? then Refused(s, s.store, t.code)
        else
          var db := Save(s.db, m, t.draft);
          var db := if t.wrote then db.(transcripts := db.transcripts + multiset{m}) else db;
          Commit(s, db, s.store, commits, if t.failure.Some? then MarkedFailed(t.failure.value) else Done)
    case Analyse(m, extracted) =>
      if m !in s.db.rows || s.db.rows[m].status != Analyzing then Outcome(s, Ok(Skipped))
      else
        var t := AnalyseStage(Load(s.db, m), now, s.db.transcripts[m] > 0, extracted);
        if t.Raises? then Refused(s, s.store, t.code)
        else
          var db := Save(s.db, m, t.draft);
          var db := if t.wrote then Charge(db, m, s.db.rows[m].duration) else db;
          Commit(s, db, s.store, commits, if t.failure.Some? then MarkedFailed(t.failure.value) else Done)
    case Purge(order, fates) =>
      if !ListsDue(s.db, order, now) then Refused(s, s.store, Uncaught)
      else
        var a := PurgeAll(s.db, order, now, s.store, fates);
        if a.result.Err? then Refused(s, a.store, a.result.error)
        else Commit(s, a.result.value.0, a.store, commits, Purged(a.result.value.1))
    case Put(m, uploadId, number, bytes) =>
      // Straight to the store, with a slot that was signed for the upload the row names.
      if m !in s.db.rows || s.db.rows[m].uploadId != Some(uploadId) then Refused(s, s.store, Forbidden)
      else
        var store := PutPart(s.store, uploadId, number, bytes);
        if store.None? then Refused(s, s.store, StorageUnavailable)
        else Outcome(Server(s.db, store.value), Ok(Done))
  }

  /** Publication: the report, the ledger entry and the charge, together. */
  function Charge(db: Db, m: nat, seconds: nat): Db {
    db.(reports := db.reports + multiset{m},
        ledger := db.ledger + [Entry(m, seconds)],
        org := db.org.(consumed := db.org.consumed + seconds))
  }

  /** `order` lists the due meetings, each once, in whatever order the database answers. */
  predicate ListsDue(db: Db, order: seq<nat>, now: int) {
    && (forall m :: m in order ==> m in db.rows && DueForPurge(db.rows[m], now))
    && (forall m :: m in db.rows && DueForPurge(db.rows[m], now) ==> m in order)
    && (forall i, j :: 0 <= i < j < |order| ==> order[i] != order[j])
  }

  /** The sweep over one organization, meeting by meeting, in one session. */
  function PurgeAll(
      db: Db, order: seq<nat>, now: int, store: StoreState, fates: nat -> (StoreFate, StoreFate))
      : Answer<(Db, seq<nat>)>
    decreases |order|
  {
    if order == [] then Answer(store, Ok((db, [])))
    else if order[0] !in db.rows || !DueForPurge(db.rows[order[0]], now) then
      PurgeAll(db, order[1..], now, store, fates)
    else
      var m := order[0];
      var one := PurgeOne(db.rows[m], now, store, fates(m));
      if one.result.Err? then Answer(one.store, Err(one.result.error))
      else
        var swept := one.result.value;
        var rest := PurgeAll(Save(db, m, swept.draft), order[1..], now, one.store, fates);
        if rest.result.Err? then rest
        else
          var ids := if swept.purged then [m] else [];
          Answer(rest.store, Ok((rest.result.value.0, ids + rest.result.value.1)))
  }
}
