/** What every serial run of the meeting life cycle keeps: states and transcripts agree, the
    audit log replays to the current status, stored audio is always named by its row, and
    what was charged is what the ledger says. */
module Lifecycle {
  import opened Prelude
  import opened Assembly
  import opened ObjectStore
  import opened Meetings

  // ------------------------------------------------------------ the audit log as a path

  /** The entries about one meeting, in order. */
  function TrailOf(audit: seq<Transition>, m: nat): seq<Transition> {
    if audit == [] then []
    else (if audit[0].meeting == m then [audit[0]] else []) + TrailOf(audit[1..], m)
  }

  /** The entries lead from one state to the other through moves of the table. */
  predicate IsPath(trail: seq<Transition>, m: nat, a: Status, b: Status) {
    if trail == [] then a == b
    else
      && trail[0].meeting == m && trail[0].source == a && trail[0].target in AllowedFrom(a)
      && IsPath(trail[1..], m, trail[0].target, b)
  }

  lemma {:induction false} TrailAppend(a: seq<Transition>, b: seq<Transition>, m: nat)
    ensures TrailOf(a + b, m) == TrailOf(a, m) + TrailOf(b, m)
  {
    if a == [] {
      assert a + b == b;
    } else {
      assert (a + b)[1..] == a[1..] + b && (a + b)[0] == a[0];
      var head := if a[0].meeting == m then [a[0]] else [];
      assert TrailOf(a + b, m) == head + TrailOf(a[1..] + b, m);
      TrailAppend(a[1..], b, m);
      Regroup(head, TrailOf(a[1..], m), TrailOf(b, m));
      hide TrailOf;
    }
  }

  /** A path of one meeting is its own trail, and leaves no trace on any other meeting. */
  lemma {:induction false} TrailOfPath(trail: seq<Transition>, m: nat, a: Status, b: Status)
    requires IsPath(trail, m, a, b)
    ensures TrailOf(trail, m) == trail
    ensures forall n :: n != m ==> TrailOf(trail, n) == []
  {
    if trail != [] {
      TrailOfPath(trail[1..], m, trail[0].target, b);
    }
  }

  lemma {:induction false} PathAppend(t: seq<Transition>, u: seq<Transition>, m: nat, a: Status, b: Status, c: Status)
    requires IsPath(t, m, a, b) && IsPath(u, m, b, c)
    ensures IsPath(t + u, m, a, c)
  {
    if t == [] {
      assert t + u == u;
    } else {
      assert (t + u)[1..] == t[1..] + u;
      PathAppend(t[1..], u, m, t[0].target, b, c);
    }
  }

  // ------------------------------------------------------------ the ledger

  function Billed(ledger: seq<Entry>): nat {
    if ledger == [] then 0 else Billed(ledger[..|ledger| - 1]) + ledger[|ledger| - 1].seconds
  }

  function EntriesFor(ledger: seq<Entry>, m: nat): nat {
    if ledger == [] then 0
    else EntriesFor(ledger[..|ledger| - 1], m) + (if ledger[|ledger| - 1].meeting == m then 1 else 0)
  }

  // ------------------------------------------------------------ the invariant

  /** One row against the number of its transcripts and reports. `Transcribing`,
      `FallbackStt` and `Completed` never outlive the transaction that enters them. */
  predicate RowOk(org: nat, m: nat, row: Row, transcripts: nat, reports: nat) {
    && row.id == m && row.organization == org
    && (row.audioKey.Some? ==> row.audioKey.value == AudioKey(org, m))
    && (row.uploadId.Some? ==> row.audioKey.Some? && row.status in {Uploading, Cancelled, Deleted})
    && transcripts <= 1 && reports <= 1
    && match row.status
       case Created => row.audioKey.None? && transcripts == 0 && reports == 0
       case Uploading => row.audioKey.Some? && transcripts == 0 && reports == 0
       case QuotaHold => row.audioKey.Some? && transcripts == 0 && reports == 0
       case Queued => row.audioKey.Some? && transcripts == 0 && reports == 0
       case Analyzing => transcripts == 1 && reports == 0
       case Published => transcripts == 1 && reports == 1
       case AudioPurged => transcripts == 1 && reports == 1 && row.audioKey.None?
       case Failed => reports == 0
       case Cancelled => transcripts == 0 && reports == 0
       case Deleted => true
       case _ => false
  }

  /** What the store may hold under a meeting's key: an object only if the row names the key,
      parts only in the upload the row names, and that upload is under this key. */
  ghost predicate Named(org: nat, m: nat, row: Row, store: StoreState) {
    && (AudioKey(org, m) in store.objects ==> row.audioKey == Some(AudioKey(org, m)))
    && (forall u :: u in store.uploads && HasParts(store.uploads[u], AudioKey(org, m)) ==> row.uploadId == Some(u))
    && (row.uploadId.Some? ==> row.uploadId.value < store.nextUpload)
    && (row.uploadId.Some? && row.uploadId.value in store.uploads ==>
          store.uploads[row.uploadId.value].key == AudioKey(org, m))
  }

  predicate HasParts(upload: Upload, key: Key) {
    upload.key == key && upload.parts != map[]
  }

  ghost predicate RowsOk(db: Db) {
    && (forall m :: m in db.rows ==> RowOk(db.org.id, m, db.rows[m], db.transcripts[m], db.reports[m]))
    && (forall m :: m !in db.rows ==> db.transcripts[m] == 0 && db.reports[m] == 0)
  }

  /** The unique constraints hold of such rows. */
  lemma RowsAreUnique(db: Db)
    requires RowsOk(db)
    ensures Unique(db)
  {
    forall m ensures db.transcripts[m] <= 1 && db.reports[m] <= 1 {
      if m in db.rows {
        assert RowOk(db.org.id, m, db.rows[m], db.transcripts[m], db.reports[m]);
      }
    }
  }

  /** Every object in the store is named by the audio key of its meeting's row, and every
      part that was sent is in the upload its row names. */
  ghost predicate StoreNamed(db: Db, store: StoreState) {
    && (forall k :: k in store.objects ==> k.organization == db.org.id && k.meeting in db.rows)
    && (forall u :: u in store.uploads ==>
          && u < store.nextUpload
          && store.uploads[u].key.organization == db.org.id && store.uploads[u].key.meeting in db.rows)
    && (forall m :: m in db.rows ==> Named(db.org.id, m, db.rows[m], store))
  }

  /** Replaying a meeting's committed entries from CREATED ends at its status. */
  ghost predicate Replays(db: Db) {
    && (forall m :: m in db.rows ==> IsPath(TrailOf(db.audit, m), m, Created, db.rows[m].status))
    && (forall m :: m !in db.rows ==> TrailOf(db.audit, m) == [])
  }

  /** One ledger entry per report, and the total charged is the total of the ledger. */
  ghost predicate Balanced(db: Db, initial: nat) {
    && db.org.consumed == initial + Billed(db.ledger)
    && (forall m :: EntriesFor(db.ledger, m) == db.reports[m])
  }

  ghost predicate Inv(s: Server, initial: nat) {
    RowsOk(s.db) && StoreNamed(s.db, s.store) && Replays(s.db) && Balanced(s.db, initial)
  }

  // ------------------------------------------------------------ what one service does

  /** Objects and uploads under other keys are untouched, and new uploads have new numbers. */
  ghost predicate Elsewhere(a: StoreState, b: StoreState, key: Key) {
    && (forall k :: k != key ==>
          (k in a.objects <==> k in b.objects) && (k in a.objects ==> a.objects[k] == b.objects[k]))
    && (forall u :: u in b.uploads && b.uploads[u].key != key ==> u in a.uploads && a.uploads[u] == b.uploads[u])
    && (forall u :: u in a.uploads && a.uploads[u].key != key ==> u in b.uploads && a.uploads[u] == b.uploads[u])
    && a.nextUpload <= b.nextUpload
    && (forall u :: u in b.uploads && u !in a.uploads ==> a.nextUpload <= u < b.nextUpload)
  }

  /** A draft that may be committed with `t` transcripts and `r` reports. */
  ghost predicate Keeps(org: nat, m: nat, before: Row, after: Draft, t: nat, r: nat, store: StoreState) {
    && RowOk(org, m, after.row, t, r)
    && Named(org, m, after.row, store)
    && IsPath(after.trail, m, before.status, after.row.status)
  }

  /** A service that left `store` behind: fine to commit, and fine to roll back. */
  ghost predicate Safe(org: nat, m: nat, before: Row, a: Answer<Draft>, t: nat, r: nat, store: StoreState) {
    && (a.result.Ok? ==> Keeps(org, m, before, a.result.value, t, r, a.store))
    && Named(org, m, before, a.store)
    && Elsewhere(store, a.store, AudioKey(org, m))
  }

  lemma OpeningStaysElsewhere(store: StoreState, key: Key)
    requires forall u :: u in store.uploads ==> u < store.nextUpload
    ensures Elsewhere(store, StartMultipart(store, key), key)
  {
  }

  lemma AbortStaysElsewhere(store: StoreState, u: nat, key: Key)
    requires u in store.uploads ==> store.uploads[u].key == key
    ensures Elsewhere(store, Abort(store, u), key)
  {
  }

  lemma StartIsSafe(env: Env, org: nat, m: nat, row: Row, t: nat, r: nat, caller: User, f: Declared,
                    now: int, store: StoreState, fate: StoreFate)
    requires env.partSize > 0 && RowOk(org, m, row, t, r) && Named(org, m, row, store)
    requires forall u :: u in store.uploads ==> u < store.nextUpload
    ensures Safe(org, m, row, Rowed(StartUpload(env, Draft(row, []), caller, f, now, store, fate)), t, r, store)
  {
    hide PartCountFor;
    var key := AudioKey(org, m);
    var a := StartUpload(env, Draft(row, []), caller, f, now, store, fate);
    assert a.store == store || a.store == StartMultipart(store, key);
    OpeningStaysElsewhere(store, key);
    assert Named(org, m, row, StartMultipart(store, key));
    if a.result.Ok? {
      OneStep(row, a.result.value.0, Uploading);
      StartedIsNamed(org, m, row, a.result.value.0.row, store);
    }
  }

  function Rowed(a: Answer<(Draft, Ticket)>): Answer<Draft> {
    Answer(a.store, if a.result.Ok? then Ok(a.result.value.0) else Err(a.result.error))
  }

  lemma StartedIsNamed(org: nat, m: nat, row: Row, started: Row, store: StoreState)
    requires Named(org, m, row, store) && row.uploadId.None?
    requires forall u :: u in store.uploads ==> u < store.nextUpload
    requires started.uploadId == Some(store.nextUpload) && started.audioKey == Some(AudioKey(org, m))
    ensures Named(org, m, started, StartMultipart(store, AudioKey(org, m)))
  {
  }

  /** A single move of the table is a path of length one. */
  lemma OneStep(row: Row, d: Draft, to: Status)
    requires to in AllowedFrom(row.status)
    requires d.trail == [Transition(row.id, row.status, to)] && d.row.status == to
    ensures IsPath(d.trail, row.id, row.status, to)
  {
    assert d.trail[1..] == [];
  }

  /** The store completes only an upload that received parts. */
  lemma CompleteNeedsParts(store: StoreState, key: Key, uploadId: nat, tags: seq<Confirmed>)
    requires Complete(store, key, uploadId, tags).Some?
    ensures uploadId in store.uploads && store.uploads[uploadId].key == key
    ensures store.uploads[uploadId].parts != map[]
  {
    var sorted := SortByNumber(tags);
    assert sorted != [] by {
      assert sorted == Insert(tags[0], SortByNumber(tags[1..]));
    }
    assert sorted[0].number in store.uploads[uploadId].parts;
  }

  /** Completion only succeeds on the upload the row names, hence only while UPLOADING moves
      on: a failed meeting does not re-enter the queue this way. */
  lemma FinishIsSafe(org: Organization, m: nat, row: Row, t: nat, r: nat, caller: User, uploadId: nat,
                     tags: seq<Confirmed>, now: int, store: StoreState, fate: StoreFate, deletion: StoreFate)
    requires RowOk(org.id, m, row, t, r) && Named(org.id, m, row, store)
    ensures Safe(org.id, m, row, Finalize(Draft(row, []), org, caller, uploadId, tags, now, store, fate, deletion), t, r, store)
    ensures Finalize(Draft(row, []), org, caller, uploadId, tags, now, store, fate, deletion).result.Ok? ==>
              row.status == Uploading && row.uploadId == Some(uploadId)
  {
    var a := Finalize(Draft(row, []), org, caller, uploadId, tags, now, store, fate, deletion);
    if row.audioKey.Some? && Complete(store, row.audioKey.value, uploadId, tags).Some? {
      CompleteNeedsParts(store, row.audioKey.value, uploadId, tags);
      assert row.uploadId == Some(uploadId);
    }
    if a.result.Ok? {
      OneStep(row, a.result.value, a.result.value.row.status);
    }
  }

  lemma AbortedIsNamed(org: nat, m: nat, row: Row, u: nat, store: StoreState)
    requires Named(org, m, row, store) && row.uploadId == Some(u)
    ensures Named(org, m, row, Abort(store, u))
    ensures Named(org, m, row.(uploadId := None), Abort(store, u))
    ensures Elsewhere(store, Abort(store, u), AudioKey(org, m))
  {
    AbortStaysElsewhere(store, u, AudioKey(org, m));
  }

  lemma CancelIsSafe(org: nat, m: nat, row: Row, t: nat, r: nat, caller: User, now: int, store: StoreState, fate: StoreFate)
    requires RowOk(org, m, row, t, r) && Named(org, m, row, store)
    ensures Safe(org, m, row, Abandon(Draft(row, []), caller, now, store, fate), t, r, store)
  {
    var a := Abandon(Draft(row, []), caller, now, store, fate);
    if row.uploadId.Some? {
      AbortedIsNamed(org, m, row, row.uploadId.value, store);
    }
    if a.result.Ok? {
      OneStep(row, a.result.value, Cancelled);
      var kept := a.result.value.row;
      assert kept.audioKey == row.audioKey;
      assert kept.uploadId == row.uploadId || kept.uploadId == None;
    }
  }

  lemma RemoveIsSafe(org: nat, m: nat, row: Row, t: nat, r: nat, caller: User, now: int, store: StoreState)
    requires RowOk(org, m, row, t, r) && Named(org, m, row, store)
    ensures Safe(org, m, row, Answer(store, RemoveMeeting(Draft(row, []), caller, now)), t, r, store)
  {
    var a := RemoveMeeting(Draft(row, []), caller, now);
    if a.Ok? {
      OneStep(row, a.value, Deleted);
    }
  }

  lemma RetryIsSafe(org: nat, m: nat, row: Row, t: nat, r: nat, caller: User, now: int, store: StoreState)
    requires RowOk(org, m, row, t, r) && Named(org, m, row, store)
    ensures Safe(org, m, row, Answer(store, RetryMeeting(Draft(row, []), t > 0, caller, now)), t, r, store)
  {
    var a := RetryMeeting(Draft(row, []), t > 0, caller, now);
    if a.Ok? {
      OneStep(row, a.value, a.value.row.status);
    }
  }

  /** Extending a path by one legal move. */
  lemma AdvanceExtends(d: Draft, to: Status, now: int, reason: Option<Code>, m: nat, a: Status)
    requires d.row.id == m && IsPath(d.trail, m, a, d.row.status)
    ensures Advance(d, to, now, reason).Some? ==> IsPath(Advance(d, to, now, reason).value.trail, m, a, to)
  {
    if to in AllowedFrom(d.row.status) {
      var last := [Transition(d.row.id, d.row.status, to)];
      assert last[1..] == [];
      PathAppend(d.trail, last, m, a, d.row.status, to);
    }
  }

  /** In a reachable state the transcription worker never meets NO_AUDIO, an illegal move or
      a second transcript; what it commits is a path through the table. */
  lemma TranscribeIsSafe(env: Env, org: nat, m: nat, row: Row, t: nat, r: nat, now: int, store: StoreState,
                         reachable: bool, heard: Heard)
    requires RowOk(org, m, row, t, r) && Named(org, m, row, store) && row.status == Queued
    ensures var s := TranscribeStage(env, Draft(row, []), now, store, reachable, heard);
            if s.Raises? then s.code == Uncaught && heard.RouterFails?
            else
              && (s.wrote ==> heard.Heard?)
              && Keeps(org, m, row, s.draft, if s.wrote then t + 1 else t, r, store)
              && (s.wrote <==> s.failure.None?)
              && (s.wrote ==>
                    && s.draft.row.status == Analyzing
                    && s.draft.row.duration == (if heard.duration != 0 then heard.duration else row.duration))
              && (s.failure.Some? ==> s.draft.row.status == Failed
                                      && s.failure.value in {AudioUnreachable, ChecksumMismatch})
  {
    AdvanceExtends(Draft(row, []), Transcribing, now, None, m, Queued);
    var d1 := Advance(Draft(row, []), Transcribing, now, None).value;
    var refused := VerifyAudio(env, store, row.audioKey.value, row.audioSha, reachable);
    if refused.Some? {
      AdvanceExtends(d1, Failed, now, refused, m, Queued);
    } else if heard.Heard? {
      AdvanceExtends(d1, FallbackStt, now, None, m, Queued);
      var d2 := if heard.fallback then Advance(d1, FallbackStt, now, None).value else d1;
      var timed := d2.row.(duration := if heard.duration != 0 then heard.duration else d2.row.duration);
      AdvanceExtends(d2.(row := timed), Analyzing, now, None, m, Queued);
    }
  }

  /** The analysis worker never meets NO_TRANSCRIPT or an illegal move. */
  lemma AnalyseIsSafe(org: nat, m: nat, row: Row, t: nat, r: nat, now: int, store: StoreState, extracted: Extracted)
    requires RowOk(org, m, row, t, r) && Named(org, m, row, store) && row.status == Analyzing
    ensures var s := AnalyseStage(Draft(row, []), now, t > 0, extracted);
            if s.Raises? then s.code == Uncaught
            else
              && Keeps(org, m, row, s.draft, t, if s.wrote then r + 1 else r, store)
              && (s.wrote <==> s.failure.None?)
              && (s.wrote ==> s.draft.row.status == Published)
              && (s.failure.Some? ==> s.draft.row.status == Failed && s.failure.value.Extraction?)
  {
    if extracted.ExtractionFails? {
      AdvanceExtends(Draft(row, []), Failed, now, Some(Extraction(extracted.code)), m, Analyzing);
    } else if extracted.Report? {
      AdvanceExtends(Draft(row, []), Completed, now, None, m, Analyzing);
      AdvanceExtends(Advance(Draft(row, []), Completed, now, None).value, Published, now, None, m, Analyzing);
    }
  }

  lemma DropIsSafe(org: nat, m: nat, row: Row, store: StoreState, abortion: StoreFate, deletion: StoreFate)
    requires row.audioKey.Some? ==> row.audioKey.value == AudioKey(org, m)
    requires row.uploadId.Some? ==> row.audioKey.Some?
    requires Named(org, m, row, store)
    ensures var (dropped, after) := DropRecording(row, store, abortion, deletion);
            && Named(org, m, row, after) && Elsewhere(store, after, AudioKey(org, m))
            && (dropped.Clean? ==>
                  && dropped.row == row.(uploadId := None)
                  && AudioKey(org, m) !in after.objects
                  && Named(org, m, dropped.row.(audioKey := None), after))
            && (dropped.Dirty? ==>
                  && dropped.row in {row, row.(uploadId := None)}
                  && Named(org, m, dropped.row, after))
  {
    if row.uploadId.Some? {
      AbortedIsNamed(org, m, row, row.uploadId.value, store);
    }
  }

  /** Dropping a recording and saying so: the key goes only when the store has let go of the
      object, and a refusal leaves status and key as they were. */
  lemma PurgeOneIsSafe(org: nat, m: nat, row: Row, t: nat, r: nat, now: int, store: StoreState,
                       fates: (StoreFate, StoreFate))
    requires RowOk(org, m, row, t, r) && Named(org, m, row, store)
    requires row.status in {Published, Failed, Cancelled, Deleted}
    ensures var a := PurgeOne(row, now, store, fates);
            && Named(org, m, row, a.store) && Elsewhere(store, a.store, AudioKey(org, m))
            && (a.result.Err? ==> a.result.error == Uncaught)
            && (a.result.Ok? ==> SweptWell(org, m, row, a.result.value, t, r, a.store))
  {
    DropIsSafe(org, m, row, store, fates.0, fates.1);
    var a := PurgeOne(row, now, store, fates);
    if a.result.Ok? && a.result.value.purged && row.status == Published {
      OneStep(row, a.result.value.draft, AudioPurged);
    }
  }

  ghost predicate SweptWell(org: nat, m: nat, row: Row, swept: Swept, t: nat, r: nat, after: StoreState) {
    && Keeps(org, m, row, swept.draft, t, r, after)
    && (swept.purged ==>
          && swept.draft.row.audioKey.None? && swept.draft.row.uploadId.None?
          && AudioKey(org, m) !in after.objects)
    && (!swept.purged ==>
          && swept.draft.row.audioKey == row.audioKey && swept.draft.row.status == row.status
          && swept.draft.trail == [])
  }

  // ------------------------------------------------------------ committing one draft

  /** The database with one draft saved and its transcript and report counts set. */
  ghost predicate Saved(db: Db, db': Db, m: nat, d: Draft, t: nat, r: nat) {
    && db'.org.id == db.org.id
    && db'.rows == db.rows[m := d.row]
    && db'.audit == db.audit + d.trail
    && db'.transcripts == db.transcripts[m := t]
    && db'.reports == db.reports[m := r]
  }

  lemma SavedReplays(db: Db, db': Db, m: nat, d: Draft, t: nat, r: nat)
    requires Replays(db) && m in db.rows && Saved(db, db', m, d, t, r)
    requires IsPath(d.trail, m, db.rows[m].status, d.row.status)
    ensures Replays(db')
  {
    TrailOfPath(d.trail, m, db.rows[m].status, d.row.status);
    TrailAppend(db.audit, d.trail, m);
    PathAppend(TrailOf(db.audit, m), d.trail, m, Created, db.rows[m].status, d.row.status);
    forall n | n != m
      ensures TrailOf(db'.audit, n) == TrailOf(db.audit, n)
    {
      TrailAppend(db.audit, d.trail, n);
    }
  }

  lemma SavedRows(db: Db, db': Db, m: nat, d: Draft, t: nat, r: nat)
    requires RowsOk(db) && m in db.rows && Saved(db, db', m, d, t, r)
    requires RowOk(db.org.id, m, d.row, t, r)
    ensures RowsOk(db') && Unique(db')
  {
  }

  /** The store after a service on meeting `m`, against rows that differ at most at `m`. */
  lemma StoreStaysNamed(db: Db, db': Db, m: nat, store: StoreState, store': StoreState)
    requires StoreNamed(db, store) && m in db.rows
    requires db'.org.id == db.org.id && db'.rows.Keys == db.rows.Keys
    requires forall n :: n in db.rows && n != m ==> db'.rows[n] == db.rows[n]
    requires Named(db.org.id, m, db'.rows[m], store')
    requires Elsewhere(store, store', AudioKey(db.org.id, m))
    ensures StoreNamed(db', store')
  {
    forall n | n in db'.rows && n != m
      ensures Named(db.org.id, n, db'.rows[n], store')
    {
      assert Named(db.org.id, n, db.rows[n], store);
    }
  }

  /** A transaction that is rolled back keeps the invariant whatever the store did. */
  lemma RolledBack(s: Server, m: nat, store': StoreState, initial: nat)
    requires Inv(s, initial) && m in s.db.rows
    requires Named(s.db.org.id, m, s.db.rows[m], store') && Elsewhere(s.store, store', AudioKey(s.db.org.id, m))
    ensures Inv(Server(s.db, store'), initial)
  {
    StoreStaysNamed(s.db, s.db, m, s.store, store');
  }

  lemma CommitKeeps(s: Server, m: nat, db': Db, d: Draft, t: nat, r: nat, store': StoreState,
                    commits: bool, reply: Reply, initial: nat)
    requires Inv(s, initial) && m in s.db.rows && Saved(s.db, db', m, d, t, r)
    requires Keeps(s.db.org.id, m, s.db.rows[m], d, t, r, store')
    requires Named(s.db.org.id, m, s.db.rows[m], store') && Elsewhere(s.store, store', AudioKey(s.db.org.id, m))
    requires Balanced(db', initial)
    ensures Inv(Commit(s, db', store', commits, reply).server, initial)
    ensures commits ==> Commit(s, db', store', commits, reply) == Outcome(Server(db', store'), Ok(reply))
    ensures !commits ==> Commit(s, db', store', commits, reply) == Outcome(Server(s.db, store'), Err(Uncaught))
  {
    RolledBack(s, m, store', initial);
    SavedReplays(s.db, db', m, d, t, r);
    SavedRows(s.db, db', m, d, t, r);
    StoreStaysNamed(s.db, db', m, s.store, store');
  }

  // ------------------------------------------------------------ the sweep

  /** The store only lost things. */
  ghost predicate Shrinks(a: StoreState, b: StoreState) {
    && (forall k :: k in b.objects ==> k in a.objects && b.objects[k] == a.objects[k])
    && (forall u :: u in b.uploads ==> u in a.uploads && b.uploads[u] == a.uploads[u])
    && a.nextUpload == b.nextUpload
  }

  lemma ShrinkingStaysNamed(db: Db, a: StoreState, b: StoreState)
    requires StoreNamed(db, a) && Shrinks(a, b)
    ensures StoreNamed(db, b)
  {
    forall m | m in db.rows
      ensures Named(db.org.id, m, db.rows[m], b)
    {
      assert Named(db.org.id, m, db.rows[m], a);
    }
  }

  lemma {:induction false} PurgeShrinks(db: Db, order: seq<nat>, now: int, store: StoreState, fates: nat -> (StoreFate, StoreFate))
    ensures Shrinks(store, PurgeAll(db, order, now, store, fates).store)
    decreases |order|
  {
    if order != [] {
      var m := order[0];
      if m !in db.rows || !DueForPurge(db.rows[m], now) {
        PurgeShrinks(db, order[1..], now, store, fates);
      } else {
        var one := PurgeOne(db.rows[m], now, store, fates(m));
        assert Shrinks(store, one.store);
        if one.result.Ok? {
          PurgeShrinks(Save(db, m, one.result.value.draft), order[1..], now, one.store, fates);
        }
      }
    }
  }

  /** What a sweep that ends well did to the rows and the store. */
  ghost predicate SweepReport(db: Db, db': Db, order: seq<nat>, ids: seq<nat>, store': StoreState) {
    && db'.rows.Keys == db.rows.Keys && db'.org == db.org
    && (forall m :: m in ids ==>
          && m in order && m in db'.rows
          && db'.rows[m].audioKey.None? && db'.rows[m].uploadId.None?
          && AudioKey(db.org.id, m) !in store'.objects)
    && (forall m :: m in db.rows && m !in order ==> db'.rows[m] == db.rows[m])
    && (forall m :: m in db.rows && m !in ids ==>
          db'.rows[m].audioKey == db.rows[m].audioKey && db'.rows[m].status == db.rows[m].status)
  }

  /** One meeting of the sweep, as if its transaction ended there. */
  lemma SweptCommits(db: Db, m: nat, now: int, store: StoreState, fates: (StoreFate, StoreFate), initial: nat)
    requires Inv(Server(db, store), initial) && m in db.rows && DueForPurge(db.rows[m], now)
    ensures var one := PurgeOne(db.rows[m], now, store, fates);
            && (one.result.Err? ==> one.result.error == Uncaught)
            && (one.result.Ok? ==>
                  && Inv(Server(Save(db, m, one.result.value.draft), one.store), initial)
                  && SweptWell(db.org.id, m, db.rows[m], one.result.value, db.transcripts[m], db.reports[m], one.store))
  {
    var one := PurgeOne(db.rows[m], now, store, fates);
    PurgeOneIsSafe(db.org.id, m, db.rows[m], db.transcripts[m], db.reports[m], now, store, fates);
    if one.result.Ok? {
      var d := one.result.value.draft;
      var next := Save(db, m, d);
      assert Saved(db, next, m, d, db.transcripts[m], db.reports[m]);
      CommitKeeps(Server(db, store), m, next, d, db.transcripts[m], db.reports[m], one.store, true, Done, initial);
    }
  }

  lemma {:induction false} PurgeKeeps(
      db: Db, order: seq<nat>, now: int, store: StoreState, fates: nat -> (StoreFate, StoreFate), initial: nat)
    requires Inv(Server(db, store), initial)
    requires forall i, j :: 0 <= i < j < |order| ==> order[i] != order[j]
    ensures var a := PurgeAll(db, order, now, store, fates);
            && (a.result.Err? ==> a.result.error == Uncaught)
            && (a.result.Ok? ==>
                  && Inv(Server(a.result.value.0, a.store), initial)
                  && SweepReport(db, a.result.value.0, order, a.result.value.1, a.store))
    decreases |order|
  {
    hide Inv, PurgeOne, Save, SweepReport;
    if order == [] {
      NothingSwept(db, store);
    } else {
      var m := order[0];
      var tail := order[1..];
      assert m !in tail;
      if m !in db.rows || !DueForPurge(db.rows[m], now) {
        PurgeKeeps(db, tail, now, store, fates, initial);
        var rest := PurgeAll(db, tail, now, store, fates);
        if rest.result.Ok? {
          SweepSkips(db, order, rest.result.value.0, rest.result.value.1, rest.store);
        }
      } else {
        SweptCommits(db, m, now, store, fates(m), initial);
        var one := PurgeOne(db.rows[m], now, store, fates(m));
        if one.result.Ok? {
          var next := Save(db, m, one.result.value.draft);
          PurgeKeeps(next, tail, now, one.store, fates, initial);
          PurgeShrinks(next, tail, now, one.store, fates);
          var rest := PurgeAll(next, tail, now, one.store, fates);
          if rest.result.Ok? {
            SweepStep(db, order, one.result.value, rest.result.value.0, rest.result.value.1, one.store, rest.store);
          }
        }
      }
    }
  }

  lemma NothingSwept(db: Db, store: StoreState)
    ensures SweepReport(db, db, [], [], store)
  {
  }

  lemma SweepSkips(db: Db, order: seq<nat>, db': Db, ids: seq<nat>, store': StoreState)
    requires order != [] && SweepReport(db, db', order[1..], ids, store')
    ensures SweepReport(db, db', order, ids, store')
  {
    forall m | m in ids ensures m in order {
      assert m in order[1..];
    }
    forall m | m in db.rows && m !in order ensures db'.rows[m] == db.rows[m] {
      assert m !in order[1..];
    }
  }

  lemma SweepStep(db: Db, order: seq<nat>, swept: Swept, db': Db, ids: seq<nat>, store1: StoreState, store': StoreState)
    requires order != [] && order[0] in db.rows && order[0] !in order[1..]
    requires SweepReport(Save(db, order[0], swept.draft), db', order[1..], ids, store')
    requires Shrinks(store1, store')
    requires swept.purged ==> swept.draft.row.audioKey.None? && swept.draft.row.uploadId.None?
                              && AudioKey(db.org.id, order[0]) !in store1.objects
    requires !swept.purged ==> swept.draft.row.audioKey == db.rows[order[0]].audioKey
                               && swept.draft.row.status == db.rows[order[0]].status
    ensures SweepReport(db, db', order, (if swept.purged then [order[0]] else []) + ids, store')
  {
    var m := order[0];
    var all := (if swept.purged then [m] else []) + ids;
    forall n | n in all
      ensures n in order && n in db'.rows && db'.rows[n].audioKey.None? && db'.rows[n].uploadId.None?
              && AudioKey(db.org.id, n) !in store'.objects
    {
      if n in ids {
        assert n in order[1..];
      } else {
        assert n == m && m !in order[1..];
      }
    }
    forall n | n in db.rows && n !in order
      ensures db'.rows[n] == db.rows[n]
    {
      assert n !in order[1..];
    }
  }

  // ------------------------------------------------------------ every event keeps it

  lemma FreshRow(s: Server, m: nat, row: Row, initial: nat)
    requires Inv(s, initial) && m !in s.db.rows
    requires RowOk(s.db.org.id, m, row, 0, 0) && row.status == Created
    requires row.audioKey.None? && row.uploadId.None?
    ensures Inv(Server(s.db.(rows := s.db.rows[m := row]), s.store), initial)
    ensures Unique(s.db.(rows := s.db.rows[m := row]))
  {
    var db := s.db.(rows := s.db.rows[m := row]);
    FreshRowIsNamed(s, m, row);
    FreshRowsOk(s, m, row);
    FreshReplays(s.db, m, row);
    hide RowsOk, StoreNamed, Replays, Unique, RowOk;
  }

  lemma FreshReplays(db: Db, m: nat, row: Row)
    requires Replays(db) && m !in db.rows && row.status == Created
    ensures Replays(db.(rows := db.rows[m := row]))
  {
  }

  lemma FreshRowIsNamed(s: Server, m: nat, row: Row)
    requires StoreNamed(s.db, s.store) && m !in s.db.rows && row.audioKey.None? && row.uploadId.None?
    ensures StoreNamed(s.db.(rows := s.db.rows[m := row]), s.store)
  {
  }

  lemma FreshRowsOk(s: Server, m: nat, row: Row)
    requires RowsOk(s.db) && m !in s.db.rows && RowOk(s.db.org.id, m, row, 0, 0)
    ensures RowsOk(s.db.(rows := s.db.rows[m := row]))
    ensures Unique(s.db.(rows := s.db.rows[m := row]))
  {
    RowsAreUnique(s.db);
  }

  predicate Request(e: Event) {
    e.Start? || e.Finish? || e.Cancel? || e.Remove? || e.Retry?
  }

  /** The service a request runs, with the ticket of an opened upload left out. */
  function ServiceOf(env: Env, s: Server, e: Event, now: int): Answer<Draft>
    requires env.partSize > 0 && Request(e) && e.m in s.db.rows
  {
    var d := Load(s.db, e.m);
    match e
    case Start(_, caller, f, fate) => Rowed(StartUpload(env, d, caller, f, now, s.store, fate))
    case Finish(_, caller, u, tags, fate, deletion) =>
      Finalize(d, s.db.org, caller, u, tags, now, s.store, fate, deletion)
    case Cancel(_, caller, fate) => Abandon(d, caller, now, s.store, fate)
    case Remove(_, caller) => Answer(s.store, RemoveMeeting(d, caller, now))
    case Retry(m, caller) => Answer(s.store, RetryMeeting(d, s.db.transcripts[m] > 0, caller, now))
  }

  lemma ServiceIsSafe(env: Env, s: Server, e: Event, now: int, initial: nat)
    requires env.partSize > 0 && Inv(s, initial) && Request(e) && e.m in s.db.rows
    ensures Safe(s.db.org.id, e.m, s.db.rows[e.m], ServiceOf(env, s, e, now),
                 s.db.transcripts[e.m], s.db.reports[e.m], s.store)
  {
    var m, org := e.m, s.db.org.id;
    var row, t, r := s.db.rows[m], s.db.transcripts[m], s.db.reports[m];
    match e
    case Start(_, caller, f, fate) => StartIsSafe(env, org, m, row, t, r, caller, f, now, s.store, fate);
    case Finish(_, caller, u, tags, fate, deletion) =>
      FinishIsSafe(s.db.org, m, row, t, r, caller, u, tags, now, s.store, fate, deletion);
    case Cancel(_, caller, fate) => CancelIsSafe(org, m, row, t, r, caller, now, s.store, fate);
    case Remove(_, caller) => RemoveIsSafe(org, m, row, t, r, caller, now, s.store);
    case Retry(_, caller) => RetryIsSafe(org, m, row, t, r, caller, now, s.store);
  }

  /** Every request is its service followed by a commit or a roll back. */
  lemma RequestIsService(env: Env, s: Server, e: Event, now: int, commits: bool)
    requires env.partSize > 0 && Request(e) && Visible(s.db, e.m, e.caller)
    ensures var a := ServiceOf(env, s, e, now);
            Step(env, s, e, now, commits).server ==
              if a.result.Err? then Server(s.db, a.store)
              else Commit(s, Save(s.db, e.m, a.result.value), a.store, commits, Done).server
  {
  }

  lemma RequestKeeps(env: Env, s: Server, e: Event, now: int, commits: bool, initial: nat)
    requires env.partSize > 0 && Inv(s, initial) && Request(e)
    ensures Inv(Step(env, s, e, now, commits).server, initial)
  {
    if Visible(s.db, e.m, e.caller) {
      var m := e.m;
      var a := ServiceOf(env, s, e, now);
      ServiceIsSafe(env, s, e, now, initial);
      RequestIsService(env, s, e, now, commits);
      if a.result.Err? {
        RolledBack(s, m, a.store, initial);
      } else {
        var d := a.result.value;
        var db' := Save(s.db, m, d);
        assert Saved(s.db, db', m, d, s.db.transcripts[m], s.db.reports[m]);
        CommitKeeps(s, m, db', d, s.db.transcripts[m], s.db.reports[m], a.store, commits, Done, initial);
      }
    }
  }

  /** The transcription worker: nothing it can meet is a surprise. */
  lemma TranscribeKeeps(env: Env, s: Server, e: Event, now: int, commits: bool, initial: nat)
    requires env.partSize > 0 && Inv(s, initial) && e.Transcribe?
    ensures Inv(Step(env, s, e, now, commits).server, initial)
    ensures var reply := Step(env, s, e, now, commits).reply;
            && (reply.Err? ==> reply.error == Uncaught)
            && (reply.Ok? && reply.value.MarkedFailed? ==> reply.value.code in {AudioUnreachable, ChecksumMismatch})
  {
    var m, org := e.m, s.db.org.id;
    if m in s.db.rows && s.db.rows[m].status == Queued {
      var row, t, r := s.db.rows[m], s.db.transcripts[m], s.db.reports[m];
      TranscribeIsSafe(env, org, m, row, t, r, now, s.store, e.reachable, e.heard);
      var stage := TranscribeStage(env, Load(s.db, m), now, s.store, e.reachable, e.heard);
      if stage.Commits? {
        var db := Save(s.db, m, stage.draft);
        var db' := if stage.wrote then db.(transcripts := db.transcripts + multiset{m}) else db;
        var t' := if stage.wrote then t + 1 else t;
        assert Saved(s.db, db', m, stage.draft, t', r);
        CommitKeeps(s, m, db', stage.draft, t', r, s.store, commits,
                    if stage.failure.Some? then MarkedFailed(stage.failure.value) else Done, initial);
      }
    }
  }

  lemma ChargeBalances(db: Db, m: nat, seconds: nat, initial: nat)
    requires Balanced(db, initial)
    ensures Balanced(Charge(db, m, seconds), initial)
  {
    var ledger := db.ledger + [Entry(m, seconds)];
    assert ledger[..|ledger| - 1] == db.ledger;
  }

  /** The analysis worker: report, ledger entry and charge commit together or not at all. */
  lemma AnalyseKeeps(env: Env, s: Server, e: Event, now: int, commits: bool, initial: nat)
    requires env.partSize > 0 && Inv(s, initial) && e.Analyse?
    ensures Inv(Step(env, s, e, now, commits).server, initial)
    ensures var reply := Step(env, s, e, now, commits).reply;
            && (reply.Err? ==> reply.error == Uncaught)
            && (reply.Ok? && reply.value.MarkedFailed? ==> reply.value.code.Extraction?)
  {
    var m, org := e.m, s.db.org.id;
    if m in s.db.rows && s.db.rows[m].status == Analyzing {
      var row, t, r := s.db.rows[m], s.db.transcripts[m], s.db.reports[m];
      AnalyseIsSafe(org, m, row, t, r, now, s.store, e.extracted);
      var stage := AnalyseStage(Load(s.db, m), now, t > 0, e.extracted);
      if stage.Commits? {
        var db := Save(s.db, m, stage.draft);
        ChargeBalances(db, m, row.duration, initial);
        var db' := if stage.wrote then Charge(db, m, row.duration) else db;
        var r' := if stage.wrote then r + 1 else r;
        assert Saved(s.db, db', m, stage.draft, t, r');
        CommitKeeps(s, m, db', stage.draft, t, r', s.store, commits,
                    if stage.failure.Some? then MarkedFailed(stage.failure.value) else Done, initial);
      }
    }
  }

  /** The retention sweep: what it reports as purged has neither object nor upload left, and
      a meeting whose deletion was refused keeps its status and its key. */
  lemma SweepKeeps(env: Env, s: Server, e: Event, now: int, commits: bool, initial: nat)
    requires env.partSize > 0 && Inv(s, initial) && e.Purge?
    ensures var o := Step(env, s, e, now, commits);
            && Inv(o.server, initial)
            && (o.reply.Ok? ==>
                  o.reply.value.Purged? && SweepReport(s.db, o.server.db, e.order, o.reply.value.ids, o.server.store))
            && (o.reply.Err? ==> o.server.db == s.db)
  {
    if ListsDue(s.db, e.order, now) {
      var a := PurgeAll(s.db, e.order, now, s.store, e.fates);
      PurgeKeeps(s.db, e.order, now, s.store, e.fates, initial);
      PurgeShrinks(s.db, e.order, now, s.store, e.fates);
      ShrinkingStaysNamed(s.db, s.store, a.store);
      if a.result.Ok? {
        assert Unique(a.result.value.0);
      }
    }
  }

  lemma PutKeeps(env: Env, s: Server, e: Event, now: int, commits: bool, initial: nat)
    requires env.partSize > 0 && Inv(s, initial) && e.Put?
    ensures Inv(Step(env, s, e, now, commits).server, initial)
  {
    var m := e.m;
    if m in s.db.rows && s.db.rows[m].uploadId == Some(e.uploadId) {
      var u := e.uploadId;
      var after := PutPart(s.store, u, e.number, e.bytes);
      assert Named(s.db.org.id, m, s.db.rows[m], s.store);
      if after.Some? {
        assert after.value.uploads[u].key == AudioKey(s.db.org.id, m);
        RolledBack(s, m, after.value, initial);
      }
    }
  }

  lemma StepKeeps(env: Env, s: Server, e: Event, now: int, commits: bool, initial: nat)
    requires env.partSize > 0 && Inv(s, initial)
    ensures Inv(Step(env, s, e, now, commits).server, initial)
  {
    match e
    case Declare(m, caller, isPrivate) =>
      if m !in s.db.rows {
        var row := Row(m, s.db.org.id, caller.id, isPrivate, Created, None, None, None, None,
                       0, 0, None, None, None, None);
        FreshRow(s, m, row, initial);
      }
    case Transcribe(_, _, _) => TranscribeKeeps(env, s, e, now, commits, initial);
    case Analyse(_, _) => AnalyseKeeps(env, s, e, now, commits, initial);
    case Purge(_, _) => SweepKeeps(env, s, e, now, commits, initial);
    case Put(_, _, _, _) => PutKeeps(env, s, e, now, commits, initial);
    case _ => RequestKeeps(env, s, e, now, commits, initial);
  }

  // ------------------------------------------------------------ main results

  datatype Tick = Tick(event: Event, now: int, commits: bool)

  function Run(env: Env, s: Server, ticks: seq<Tick>): Server
    requires env.partSize > 0
    decreases |ticks|
  {
    if ticks == [] then s
    else
      var last := ticks[|ticks| - 1];
      Step(env, Run(env, s, ticks[..|ticks| - 1]), last.event, last.now, last.commits).server
  }

  function Fresh(org: Organization): Server {
    Server(Db(org, map[], multiset{}, multiset{}, [], []), EMPTY_STORE)
  }

  /** Every serial run, with store failures and rolled-back commits anywhere, keeps all of it. */
  lemma {:induction false} EveryRunKeeps(env: Env, org: Organization, ticks: seq<Tick>)
    requires env.partSize > 0
    ensures Inv(Run(env, Fresh(org), ticks), org.consumed)
    decreases |ticks|
  {
    if ticks != [] {
      var init := ticks[..|ticks| - 1];
      var last := ticks[|ticks| - 1];
      EveryRunKeeps(env, org, init);
      StepKeeps(env, Run(env, Fresh(org), init), last.event, last.now, last.commits, org.consumed);
    }
  }

  /** States and what exists beside them, in every reachable database. */
  lemma StatesAgree(env: Env, org: Organization, ticks: seq<Tick>, m: nat)
    requires env.partSize > 0
    ensures var db := Run(env, Fresh(org), ticks).db;
            m in db.rows ==>
              && db.rows[m].status !in {Transcribing, FallbackStt, Completed}
              && (db.rows[m].status in {Queued, QuotaHold, Uploading} ==>
                    db.rows[m].audioKey.Some? && db.transcripts[m] == 0)
              && (db.rows[m].status in {Analyzing, Published, AudioPurged} ==> db.transcripts[m] == 1)
              && (db.rows[m].status in {Published, AudioPurged} ==> db.reports[m] == 1)
              && IsPath(TrailOf(db.audit, m), m, Created, db.rows[m].status)
  {
    EveryRunKeeps(env, org, ticks);
  }

  /** The worker's refusals that cannot happen: no audio, no transcript, a second transcript
      or report, an illegal move. */
  lemma WorkersAreNeverSurprised(env: Env, org: Organization, ticks: seq<Tick>, next: Tick)
    requires env.partSize > 0 && (next.event.Transcribe? || next.event.Analyse?)
    ensures var reply := Step(env, Run(env, Fresh(org), ticks), next.event, next.now, next.commits).reply;
            && (reply.Err? ==> reply.error == Uncaught)
            && (reply.Ok? && reply.value.MarkedFailed? ==>
                  reply.value.code !in {NoAudio, NoTranscript, IllegalTransition, UniqueViolation})
  {
    EveryRunKeeps(env, org, ticks);
    var s := Run(env, Fresh(org), ticks);
    if next.event.Transcribe? {
      TranscribeKeeps(env, s, next.event, next.now, next.commits, org.consumed);
    } else {
      AnalyseKeeps(env, s, next.event, next.now, next.commits, org.consumed);
    }
  }

  /** No audio is ever stored without a row that names it. */
  lemma StoredAudioIsNamed(env: Env, org: Organization, ticks: seq<Tick>, key: Key)
    requires env.partSize > 0 && key in Run(env, Fresh(org), ticks).store.objects
    ensures var db := Run(env, Fresh(org), ticks).db;
            key.meeting in db.rows && db.rows[key.meeting].audioKey == Some(key)
  {
    EveryRunKeeps(env, org, ticks);
    var s := Run(env, Fresh(org), ticks);
    assert Named(s.db.org.id, key.meeting, s.db.rows[key.meeting], s.store);
  }

  /** A row's key only becomes null once the object is out of the store, whatever happened. */
  lemma KeyOutlivesAudio(env: Env, org: Organization, ticks: seq<Tick>, next: Tick, m: nat)
    requires env.partSize > 0
    ensures var s := Run(env, Fresh(org), ticks);
            var s' := Step(env, s, next.event, next.now, next.commits).server;
            m in s.db.rows && s.db.rows[m].audioKey.Some? ==>
              && m in s'.db.rows
              && (s'.db.rows[m].audioKey.None? ==>
                    next.event.Purge? && s.db.rows[m].audioKey.value !in s'.store.objects)
  {
    EveryRunKeeps(env, org, ticks);
    var s := Run(env, Fresh(org), ticks);
    if m in s.db.rows && s.db.rows[m].audioKey.Some? {
      KeyGoesWithObject(env, s, next.event, next.now, next.commits, m, org.consumed);
    }
  }

  lemma KeyGoesWithObject(env: Env, s: Server, e: Event, now: int, commits: bool, m: nat, initial: nat)
    requires env.partSize > 0 && Inv(s, initial) && m in s.db.rows && s.db.rows[m].audioKey.Some?
    ensures var s' := Step(env, s, e, now, commits).server;
            && m in s'.db.rows
            && (s'.db.rows[m].audioKey.None? ==> e.Purge? && s.db.rows[m].audioKey.value !in s'.store.objects)
  {
    RowsStay(env, s, e, now, commits, m);
    StepKeeps(env, s, e, now, commits, initial);
    var s' := Step(env, s, e, now, commits).server;
    assert Named(s'.db.org.id, m, s'.db.rows[m], s'.store);
    assert s.db.rows[m].audioKey.value == AudioKey(s.db.org.id, m);
  }

  /** Nothing a sweep reports as purged has an object or an upload id left; everything else
      keeps its status and its key. */
  lemma SweepTellsTheTruth(env: Env, org: Organization, ticks: seq<Tick>, next: Tick)
    requires env.partSize > 0 && next.event.Purge?
    ensures var s := Run(env, Fresh(org), ticks);
            var o := Step(env, s, next.event, next.now, next.commits);
            && (o.reply.Ok? ==>
                  && o.reply.value.Purged?
                  && SweepReport(s.db, o.server.db, next.event.order, o.reply.value.ids, o.server.store))
            && (o.reply.Err? ==> o.server.db == s.db)
  {
    EveryRunKeeps(env, org, ticks);
    SweepKeeps(env, Run(env, Fresh(org), ticks), next.event, next.now, next.commits, org.consumed);
  }

  /** Rows never go, the organization keeps its identity, and only the sweep clears a key. */
  lemma RowsStay(env: Env, s: Server, e: Event, now: int, commits: bool, m: nat)
    requires env.partSize > 0 && m in s.db.rows
    ensures Stays(s, e, m, Step(env, s, e, now, commits).server)
  {
    if e.Purge? {
      PurgeRowsStay(s.db, e.order, now, s.store, e.fates, m);
    } else if Request(e) {
      RequestRowsStay(env, s, e, now, commits, m);
    } else if e.Transcribe? || e.Analyse? {
      WorkerRowsStay(env, s, e, now, commits, m);
    }
  }

  ghost predicate Stays(s: Server, e: Event, m: nat, s': Server)
    requires m in s.db.rows
  {
    && m in s'.db.rows && s'.db.org.id == s.db.org.id
    && (!e.Purge? && s.db.rows[m].audioKey.Some? ==> s'.db.rows[m].audioKey.Some?)
  }

  lemma RequestRowsStay(env: Env, s: Server, e: Event, now: int, commits: bool, m: nat)
    requires env.partSize > 0 && m in s.db.rows && Request(e)
    ensures Stays(s, e, m, Step(env, s, e, now, commits).server)
  {
    if Visible(s.db, e.m, e.caller) {
      RequestIsService(env, s, e, now, commits);
      ServiceKeepsKey(env, s, e, now);
    }
  }

  lemma WorkerRowsStay(env: Env, s: Server, e: Event, now: int, commits: bool, m: nat)
    requires env.partSize > 0 && m in s.db.rows && (e.Transcribe? || e.Analyse?)
    ensures Stays(s, e, m, Step(env, s, e, now, commits).server)
  {
    hide Unique, TranscribeStage, AnalyseStage, Advance;
    if e.m in s.db.rows {
      var d := Load(s.db, e.m);
      if e.Transcribe? {
        TranscribeKeepsKey(env, d, now, s.store, e.reachable, e.heard);
      } else {
        AnalyseKeepsKey(d, now, s.db.transcripts[e.m] > 0, e.extracted);
      }
    }
  }

  predicate KeepsKey(stage: Staged, row: Row) {
    stage.Commits? && row.audioKey.Some? ==> stage.draft.row.audioKey.Some?
  }

  lemma TranscribeKeepsKey(env: Env, d: Draft, now: int, store: StoreState, reachable: bool, heard: Heard)
    ensures KeepsKey(TranscribeStage(env, d, now, store, reachable, heard), d.row)
  {
  }

  lemma AnalyseKeepsKey(d: Draft, now: int, transcribed: bool, extracted: Extracted)
    ensures KeepsKey(AnalyseStage(d, now, transcribed, extracted), d.row)
  {
  }

  lemma ServiceKeepsKey(env: Env, s: Server, e: Event, now: int)
    requires env.partSize > 0 && Request(e) && e.m in s.db.rows
    ensures var a := ServiceOf(env, s, e, now);
            a.result.Ok? && s.db.rows[e.m].audioKey.Some? ==> a.result.value.row.audioKey.Some?
  {
  }

  lemma {:induction false} PurgeRowsStay(
      db: Db, order: seq<nat>, now: int, store: StoreState, fates: nat -> (StoreFate, StoreFate), m: nat)
    requires m in db.rows
    ensures var a := PurgeAll(db, order, now, store, fates);
            a.result.Ok? ==> m in a.result.value.0.rows && a.result.value.0.org == db.org
    decreases |order|
  {
    if order != [] {
      if order[0] !in db.rows || !DueForPurge(db.rows[order[0]], now) {
        PurgeRowsStay(db, order[1..], now, store, fates, m);
      } else {
        var one := PurgeOne(db.rows[order[0]], now, store, fates(order[0]));
        if one.result.Ok? {
          PurgeRowsStay(Save(db, order[0], one.result.value.draft), order[1..], now, one.store, fates, m);
        }
      }
    }
  }
}
