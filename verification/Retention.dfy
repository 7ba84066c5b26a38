/** The retention promise over whole runs: every recording that reached the store has a
    deadline and comes due by it, and the next sweep that reaches the store removes it, or
    none ever does. */
module Retention {
  import opened Prelude
  import opened Assembly
  import opened ObjectStore
  import opened Meetings
  import opened Lifecycle

  const PAST_FINALIZE := {QuotaHold, Queued, Transcribing, FallbackStt, Analyzing, Completed, Published, AudioPurged, Failed}

  /** A meeting whose recording has landed has a deadline. */
  predicate Dated(row: Row) {
    row.status in PAST_FINALIZE ==> row.purgeAt.Some?
  }

  /** A result that commits a row, if it does, commits a dated one. */
  predicate DatedResult(a: Answer<Draft>) {
    a.result.Ok? ==> Dated(a.result.value.row)
  }

  predicate DatedStage(stage: Staged) {
    stage.Commits? ==> Dated(stage.draft.row)
  }

  lemma ServiceDates(env: Env, s: Server, e: Event, now: int)
    requires env.partSize > 0 && Request(e) && e.m in s.db.rows && Dated(s.db.rows[e.m])
    ensures DatedResult(ServiceOf(env, s, e, now))
  {
    match e
    case Finish(_, caller, u, tags, fate, deletion) =>
      FinalizeDates(Load(s.db, e.m), s.db.org, caller, u, tags, now, s.store, fate, deletion);
    case _ =>
  }

  /** The deadline is the moment of `finalize` plus the retention that was bought; the meeting
      goes to the queue or, over quota, waits, and its audio is stored either way. */
  lemma FinalizeDates(d: Draft, org: Organization, caller: User, u: nat, tags: seq<Confirmed>, now: int,
                      store: StoreState, fate: StoreFate, deletion: StoreFate)
    ensures var a := Finalize(d, org, caller, u, tags, now, store, fate, deletion);
            a.result.Ok? ==>
              var row := a.result.value.row;
              && row.purgeAt == Some(now + org.retention) && Dated(row)
              && row.duration == d.row.duration && row.paused == d.row.paused
              && row.status in {Queued, QuotaHold}
              && (row.status == Queued <==>
                    org.quota.None? || row.duration == 0 || org.consumed + row.duration <= org.quota.value)
              && row.uploadId.None? && u !in a.store.uploads
              && row.audioKey.Some? && row.audioKey.value in a.store.objects
              && row.audioBytes == Some(|a.store.objects[row.audioKey.value]|)
              && (d.row.audioBytes.Some? ==> row.audioBytes == d.row.audioBytes)
  {
    hide Assemble, SortByNumber;
  }

  lemma TranscribeDates(env: Env, d: Draft, now: int, store: StoreState, reachable: bool, heard: Heard)
    requires Dated(d.row) && d.row.status == Queued
    ensures DatedStage(TranscribeStage(env, d, now, store, reachable, heard))
  {
    hide VerifyAudio;
  }

  lemma AnalyseDates(d: Draft, now: int, transcribed: bool, extracted: Extracted)
    requires Dated(d.row) && d.row.status == Analyzing
    ensures DatedStage(AnalyseStage(d, now, transcribed, extracted))
  {
  }

  lemma PurgeOneDates(row: Row, now: int, store: StoreState, fates: (StoreFate, StoreFate))
    requires Dated(row) && DueForPurge(row, now)
    ensures var a := PurgeOne(row, now, store, fates);
            a.result.Ok? ==> Dated(a.result.value.draft.row)
  {
  }

  ghost predicate AllDated(db: Db) {
    forall m :: m in db.rows ==> Dated(db.rows[m])
  }

  lemma {:induction false} PurgeDates(db: Db, order: seq<nat>, now: int, store: StoreState, fates: nat -> (StoreFate, StoreFate))
    requires AllDated(db)
    ensures var a := PurgeAll(db, order, now, store, fates);
            a.result.Ok? ==> AllDated(a.result.value.0)
    decreases |order|
  {
    hide PurgeOne, Dated;
    if order != [] {
      var m := order[0];
      if m !in db.rows || !DueForPurge(db.rows[m], now) {
        PurgeDates(db, order[1..], now, store, fates);
      } else {
        PurgeOneDates(db.rows[m], now, store, fates(m));
        var one := PurgeOne(db.rows[m], now, store, fates(m));
        if one.result.Ok? {
          PurgeDates(Save(db, m, one.result.value.draft), order[1..], now, one.store, fates);
        }
      }
    }
  }

  lemma StepDates(env: Env, s: Server, e: Event, now: int, commits: bool)
    requires env.partSize > 0 && AllDated(s.db)
    ensures AllDated(Step(env, s, e, now, commits).server.db)
  {
    hide Dated, Unique;
    if e.Purge? {
      PurgeDates(s.db, e.order, now, s.store, e.fates);
    } else if Request(e) {
      RequestDates(env, s, e, now, commits);
    } else if e.Transcribe? || e.Analyse? {
      WorkerDates(env, s, e, now, commits);
    } else if e.Declare? {
      CreatedIsDated();
    }
  }

  lemma CreatedIsDated()
    ensures forall row: Row :: row.status == Created ==> Dated(row)
  {
  }

  lemma RequestDates(env: Env, s: Server, e: Event, now: int, commits: bool)
    requires env.partSize > 0 && AllDated(s.db) && Request(e)
    ensures AllDated(Step(env, s, e, now, commits).server.db)
  {
    hide Dated, Unique;
    if Visible(s.db, e.m, e.caller) {
      ServiceDates(env, s, e, now);
      RequestIsService(env, s, e, now, commits);
      hide Step, ServiceOf;
    }
  }

  lemma WorkerDates(env: Env, s: Server, e: Event, now: int, commits: bool)
    requires env.partSize > 0 && AllDated(s.db) && (e.Transcribe? || e.Analyse?)
    ensures AllDated(Step(env, s, e, now, commits).server.db)
  {
    hide Dated, Unique, TranscribeStage, AnalyseStage;
    if e.m in s.db.rows {
      var d := Load(s.db, e.m);
      if e.Transcribe? && d.row.status == Queued {
        TranscribeDates(env, d, now, s.store, e.reachable, e.heard);
      } else if e.Analyse? && d.row.status == Analyzing {
        AnalyseDates(d, now, s.db.transcripts[e.m] > 0, e.extracted);
      }
    }
  }

  lemma {:induction false} EveryRunDates(env: Env, org: Organization, ticks: seq<Tick>)
    requires env.partSize > 0
    ensures AllDated(Run(env, Fresh(org), ticks).db)
    decreases |ticks|
  {
    if ticks != [] {
      hide Step, AllDated;
      var init := ticks[..|ticks| - 1];
      var last := ticks[|ticks| - 1];
      EveryRunDates(env, org, init);
      StepDates(env, Run(env, Fresh(org), init), last.event, last.now, last.commits);
    } else {
      assert Fresh(org).db.rows == map[];
    }
  }

  // ------------------------------------------------------------ coming due

  /** In every reachable database a meeting that still holds anything in the store and has no
      work outstanding comes due: cancelled and deleted ones at once, published and failed
      ones exactly at their deadline, which they all have. */
  lemma EverythingComesDue(env: Env, org: Organization, ticks: seq<Tick>, m: nat, now: int)
    requires env.partSize > 0
    ensures var db := Run(env, Fresh(org), ticks).db;
            m in db.rows && (db.rows[m].audioKey.Some? || db.rows[m].uploadId.Some?) ==>
              && (db.rows[m].status in {Cancelled, Deleted} ==> DueForPurge(db.rows[m], now))
              && (db.rows[m].status in {Published, Failed} ==>
                    db.rows[m].purgeAt.Some?
                    && (DueForPurge(db.rows[m], now) <==> db.rows[m].purgeAt.value <= now))
  {
    EveryRunDates(env, org, ticks);
  }

  // ------------------------------------------------------------ and being gone

  /** A store that every call reaches: a deletion is answered, and so is the abort of an
      upload that is there. */
  ghost predicate Reached(fates: nat -> (StoreFate, StoreFate)) {
    forall m :: fates(m) == (Answers, Answers)
  }

  /** The row names no upload, or one the store still has. */
  predicate Removable(row: Row, store: StoreState) {
    row.uploadId.None? || row.uploadId.value in store.uploads
  }

  /** And both calls for it are answered. */
  predicate Goes(row: Row, store: StoreState, fates: (StoreFate, StoreFate)) {
    && (row.uploadId.None? || (row.uploadId.value in store.uploads && fates.0.Answers?))
    && fates.1.Answers?
  }

  /** What the store makes of one due meeting. */
  lemma PurgesOne(db: Db, store: StoreState, m: nat, now: int, fates: (StoreFate, StoreFate), initial: nat)
    requires Inv(Server(db, store), initial) && m in db.rows && DueForPurge(db.rows[m], now)
    ensures var a := PurgeOne(db.rows[m], now, store, fates);
            && db.rows[m].status in {Published, Failed, Cancelled, Deleted}
            && (a.result.Ok? ==> (a.result.value.purged <==> Goes(db.rows[m], store, fates)))
            && (fates == (Answers, Answers) ==> a.result.Ok?)
            && Elsewhere(store, a.store, AudioKey(db.org.id, m))
  {
    var row, t, r := db.rows[m], db.transcripts[m], db.reports[m];
    assert RowOk(db.org.id, m, row, t, r) && Named(db.org.id, m, row, store);
    hide Inv;
    PurgeOneIsSafe(db.org.id, m, row, t, r, now, store, fates);
  }

  /** Dealing with one meeting changes nothing about another's upload. */
  lemma StaysRemovable(db: Db, a: StoreState, b: StoreState, m: nat, n: nat)
    requires StoreNamed(db, a) && Elsewhere(a, b, AudioKey(db.org.id, m)) && n in db.rows && n != m
    ensures forall fates :: Goes(db.rows[n], b, fates) <==> Goes(db.rows[n], a, fates)
  {
    assert Named(db.org.id, n, db.rows[n], a);
  }

  lemma {:induction false} SweepPurgesIff(
      db: Db, order: seq<nat>, now: int, store: StoreState, fates: nat -> (StoreFate, StoreFate), initial: nat)
    requires Inv(Server(db, store), initial)
    requires forall i, j :: 0 <= i < j < |order| ==> order[i] != order[j]
    requires forall m :: m in order ==> m in db.rows && DueForPurge(db.rows[m], now)
    ensures var a := PurgeAll(db, order, now, store, fates);
            && (a.result.Ok? ==>
                  forall m :: m in order ==> (m in a.result.value.1 <==> Goes(db.rows[m], store, fates(m))))
            && (Reached(fates) ==> a.result.Ok?)
    decreases |order|
  {
    hide Inv, PurgeOne, DueForPurge, Save, Goes, Elsewhere;
    if order != [] {
      var m, tail := order[0], order[1..];
      assert m !in tail;
      PurgesOne(db, store, m, now, fates(m), initial);
      SweptCommits(db, m, now, store, fates(m), initial);
      var one := PurgeOne(db.rows[m], now, store, fates(m));
      if one.result.Err? {
        return;
      }
      var next := Save(db, m, one.result.value.draft);
      OthersUntouched(db, m, one.result.value.draft);
      forall n | n in tail
        ensures n in next.rows && next.rows[n] == db.rows[n] && DueForPurge(next.rows[n], now)
        ensures Goes(next.rows[n], one.store, fates(n)) <==> Goes(db.rows[n], store, fates(n))
      {
        assert n in order;
        InvNames(db, store, initial);
        StaysRemovable(db, store, one.store, m, n);
      }
      SweepPurgesIff(next, tail, now, one.store, fates, initial);
      PurgeKeeps(next, tail, now, one.store, fates, initial);
      var rest := PurgeAll(next, tail, now, one.store, fates);
      assert rest.result.Ok? ==> m !in rest.result.value.1;
      forall n | n in order && n != m ensures n in tail {
      }
    }
  }

  lemma InvNames(db: Db, store: StoreState, initial: nat)
    requires Inv(Server(db, store), initial)
    ensures StoreNamed(db, store)
  {
  }

  lemma OthersUntouched(db: Db, m: nat, d: Draft)
    ensures forall n :: n in db.rows && n != m ==> n in Save(db, m, d).rows && Save(db, m, d).rows[n] == db.rows[n]
  {
  }

  /** After any run, a committed sweep of a store that is reached purges of the meetings that
      were due exactly those whose row names no upload or one the store still has, and nothing
      of those is left. */
  lemma SweepLeavesNothingRemovable(env: Env, org: Organization, ticks: seq<Tick>, order: seq<nat>,
                                    fates: nat -> (StoreFate, StoreFate), now: int)
    requires env.partSize > 0 && Reached(fates)
    requires ListsDue(Run(env, Fresh(org), ticks).db, order, now)
    ensures var s := Run(env, Fresh(org), ticks);
            var o := Step(env, s, Purge(order, fates), now, true);
            && o.reply.Ok? && o.reply.value.Purged?
            && forall m :: m in s.db.rows && DueForPurge(s.db.rows[m], now) ==>
                 && m in o.server.db.rows
                 && (m in o.reply.value.ids <==> Removable(s.db.rows[m], s.store))
                 && (Removable(s.db.rows[m], s.store) ==>
                       && o.server.db.rows[m].audioKey.None? && o.server.db.rows[m].uploadId.None?
                       && AudioKey(s.db.org.id, m) !in o.server.store.objects)
  {
    hide Run, Inv, PurgeAll, Unique, DueForPurge, Step;
    EveryRunKeeps(env, org, ticks);
    var s := Run(env, Fresh(org), ticks);
    SweepPurgesIff(s.db, order, now, s.store, fates, org.consumed);
    PurgeKeeps(s.db, order, now, s.store, fates, org.consumed);
    SweepCommits(env, s, order, fates, now, org.consumed);
  }

  lemma SweepCommits(env: Env, s: Server, order: seq<nat>, fates: nat -> (StoreFate, StoreFate), now: int, initial: nat)
    requires env.partSize > 0 && Inv(s, initial) && ListsDue(s.db, order, now)
    requires PurgeAll(s.db, order, now, s.store, fates).result.Ok?
    ensures var a := PurgeAll(s.db, order, now, s.store, fates);
            Step(env, s, Purge(order, fates), now, true)
            == Outcome(Server(a.result.value.0, a.store), Ok(Purged(a.result.value.1)))
  {
    hide Inv, PurgeAll, Unique, SweepReport, ListsDue;
    OnceEach(s.db, order, now);
    PurgeKeeps(s.db, order, now, s.store, fates, initial);
    var a := PurgeAll(s.db, order, now, s.store, fates);
    InvUnique(Server(a.result.value.0, a.store), initial);
    hide StartUpload, Finalize, Abandon, RemoveMeeting, RetryMeeting, TranscribeStage, AnalyseStage, PutPart, Visible;
  }

  lemma OnceEach(db: Db, order: seq<nat>, now: int)
    requires ListsDue(db, order, now)
    ensures forall i, j :: 0 <= i < j < |order| ==> order[i] != order[j]
  {
  }

  lemma InvUnique(s: Server, initial: nat)
    requires Inv(s, initial)
    ensures Unique(s.db)
  {
    RowsAreUnique(s.db);
  }

  // ------------------------------------------------------------ or never

  /** The row names an upload the store no longer has: it was completed or aborted by a
      transaction that did not get to say so. */
  ghost predicate Leaked(s: Server, m: nat) {
    && m in s.db.rows && s.db.rows[m].uploadId.Some?
    && s.db.rows[m].uploadId.value !in s.store.uploads
  }

  /** Nothing moved: not what the row names, not what the store has under the key. */
  ghost predicate StillLeaked(org: nat, m: nat, row: Row, a: StoreState, after: Row, b: StoreState) {
    && after.uploadId == row.uploadId && after.audioKey == row.audioKey
    && row.uploadId.Some? && row.uploadId.value !in b.uploads
    && (AudioKey(org, m) in b.objects <==> AudioKey(org, m) in a.objects)
    && (AudioKey(org, m) in a.objects ==> b.objects[AudioKey(org, m)] == a.objects[AudioKey(org, m)])
  }

  lemma ElsewhereLeaked(db: Db, a: StoreState, b: StoreState, m: nat, n: nat)
    requires StoreNamed(db, a) && Leaked(Server(db, a), m) && n != m && Elsewhere(a, b, AudioKey(db.org.id, n))
    ensures StillLeaked(db.org.id, m, db.rows[m], a, db.rows[m], b)
  {
    assert Named(db.org.id, m, db.rows[m], a);
  }

  lemma OwnServiceLeaked(env: Env, s: Server, e: Event, now: int, initial: nat)
    requires env.partSize > 0 && Inv(s, initial) && Request(e) && Leaked(s, e.m)
    ensures var a := ServiceOf(env, s, e, now);
            && StillLeaked(s.db.org.id, e.m, s.db.rows[e.m], s.store, s.db.rows[e.m], a.store)
            && (a.result.Ok? ==> StillLeaked(s.db.org.id, e.m, s.db.rows[e.m], s.store, a.result.value.row, a.store))
  {
    var m, row := e.m, s.db.rows[e.m];
    assert RowOk(s.db.org.id, m, row, s.db.transcripts[m], s.db.reports[m]);
    assert Named(s.db.org.id, m, row, s.store);
    hide Inv, Named, PartCountFor, Finalize, Complete;
    if e.Finish? {
      FinishLeaked(s.db.org, m, row, e, now, s.store);
    } else if e.Start? {
      StartLeaked(env, row, e, now, s.store);
      hide StartUpload;
    } else if e.Cancel? {
      CancelLeaked(row, e, now, s.store);
      hide Abandon;
    }
  }

  lemma StartLeaked(env: Env, row: Row, e: Event, now: int, store: StoreState)
    requires env.partSize > 0 && e.Start? && row.status != Created
    ensures var a := StartUpload(env, Draft(row, []), e.caller, e.declared, now, store, e.fate);
            a.result.Err? && a.store == store
  {
    hide PartCountFor;
  }

  lemma CancelLeaked(row: Row, e: Event, now: int, store: StoreState)
    requires e.Cancel? && row.uploadId.Some? && row.uploadId.value !in store.uploads
    ensures var a := Abandon(Draft(row, []), e.caller, now, store, e.fate);
            && a.store == store
            && (a.result.Ok? ==> a.result.value.row.uploadId == row.uploadId && a.result.value.row.audioKey == row.audioKey)
  {
    assert Abort(store, row.uploadId.value) == store;
  }

  lemma FinishLeaked(org: Organization, m: nat, row: Row, e: Event, now: int, store: StoreState)
    requires e.Finish? && row.uploadId.Some? && row.uploadId.value !in store.uploads
    requires row.audioKey == Some(AudioKey(org.id, m)) && Named(org.id, m, row, store)
    ensures var a := Finalize(Draft(row, []), org, e.caller, e.uploadId, e.tags, now, store, e.fate, e.deletion);
            a.result.Err? && a.store == store
  {
    LeakedCannotComplete(org.id, m, row, e.uploadId, e.tags, store);
    hide Complete;
  }

  /** Only the upload the row names has parts. */
  lemma LeakedCannotComplete(org: nat, m: nat, row: Row, uploadId: nat, tags: seq<Confirmed>, store: StoreState)
    requires row.uploadId.Some? && row.uploadId.value !in store.uploads && Named(org, m, row, store)
    ensures Complete(store, AudioKey(org, m), uploadId, tags).None?
  {
    if Complete(store, AudioKey(org, m), uploadId, tags).Some? {
      CompleteNeedsParts(store, AudioKey(org, m), uploadId, tags);
      hide Complete;
      assert false;
    }
  }

  lemma RequestLeaked(env: Env, s: Server, e: Event, now: int, commits: bool, m: nat, initial: nat)
    requires env.partSize > 0 && Inv(s, initial) && Request(e) && Leaked(s, m)
    ensures var b := Step(env, s, e, now, commits).server;
            m in b.db.rows && StillLeaked(s.db.org.id, m, s.db.rows[m], s.store, b.db.rows[m], b.store)
  {
    if Visible(s.db, e.m, e.caller) {
      RequestIsService(env, s, e, now, commits);
      ServiceLeaked(env, s, e, now, m, initial);
    } else {
      UnseenAside(env, s, e, now, commits);
    }
    hide Inv, Step, ServiceOf, Unique;
  }

  lemma UnseenAside(env: Env, s: Server, e: Event, now: int, commits: bool)
    requires env.partSize > 0 && Request(e) && !Visible(s.db, e.m, e.caller)
    ensures Step(env, s, e, now, commits).server == s
  {
  }

  lemma ServiceLeaked(env: Env, s: Server, e: Event, now: int, m: nat, initial: nat)
    requires env.partSize > 0 && Inv(s, initial) && Request(e) && Leaked(s, m) && e.m in s.db.rows
    ensures var a := ServiceOf(env, s, e, now);
            && StillLeaked(s.db.org.id, m, s.db.rows[m], s.store, s.db.rows[m], a.store)
            && (a.result.Ok? && e.m == m ==>
                  StillLeaked(s.db.org.id, m, s.db.rows[m], s.store, a.result.value.row, a.store))
  {
    hide ServiceOf, StillLeaked;
    if e.m == m {
      OwnServiceLeaked(env, s, e, now, initial);
    } else {
      InvNames(s.db, s.store, initial);
      ServiceIsSafe(env, s, e, now, initial);
      hide Inv, StoreNamed, Elsewhere, Keeps, Named;
      ElsewhereLeaked(s.db, s.store, ServiceOf(env, s, e, now).store, m, e.m);
    }
  }

  lemma {:induction false} SweepLeaked(
      db: Db, order: seq<nat>, now: int, store: StoreState, fates: nat -> (StoreFate, StoreFate), m: nat, initial: nat)
    requires Inv(Server(db, store), initial) && Leaked(Server(db, store), m)
    requires forall i, j :: 0 <= i < j < |order| ==> order[i] != order[j]
    ensures var a := PurgeAll(db, order, now, store, fates);
            && StillLeaked(db.org.id, m, db.rows[m], store, db.rows[m], a.store)
            && (a.result.Ok? ==>
                  && m in a.result.value.0.rows && m !in a.result.value.1
                  && StillLeaked(db.org.id, m, db.rows[m], store, a.result.value.0.rows[m], a.store))
    decreases |order|
  {
    hide Inv, PurgeOne, Save, Elsewhere, SweepReport;
    if order != [] {
      var n, tail := order[0], order[1..];
      if n !in db.rows || !DueForPurge(db.rows[n], now) {
        SweepLeaked(db, tail, now, store, fates, m, initial);
      } else {
        var one := PurgeOne(db.rows[n], now, store, fates(n));
        SweptCommits(db, n, now, store, fates(n), initial);
        OneLeaked(db, n, now, store, fates(n), m, initial);
        if one.result.Ok? {
          var next := Save(db, n, one.result.value.draft);
          SavedRow(db, n, one.result.value.draft, m);
          SweepLeaked(next, tail, now, one.store, fates, m, initial);
        }
      }
    }
  }

  lemma SavedRow(db: Db, n: nat, d: Draft, m: nat)
    requires m in db.rows
    ensures m in Save(db, n, d).rows && Save(db, n, d).org == db.org
    ensures Save(db, n, d).rows[m] == if m == n then d.row else db.rows[m]
  {
  }

  /** The sweep at one meeting: the leaked one is left as it is. */
  lemma OneLeaked(db: Db, n: nat, now: int, store: StoreState, fates: (StoreFate, StoreFate), m: nat, initial: nat)
    requires Inv(Server(db, store), initial) && Leaked(Server(db, store), m)
    requires n in db.rows && DueForPurge(db.rows[n], now)
    ensures var one := PurgeOne(db.rows[n], now, store, fates);
            && StillLeaked(db.org.id, m, db.rows[m], store, db.rows[m], one.store)
            && (n == m && one.result.Ok? ==> !one.result.value.purged && one.result.value.draft.row == db.rows[m])
  {
    var row, t, r := db.rows[n], db.transcripts[n], db.reports[n];
    assert RowOk(db.org.id, n, row, t, r) && Named(db.org.id, n, row, store);
    InvNames(db, store, initial);
    hide Inv, PurgeOne, StoreNamed;
    if n == m {
      DropLeaked(row, now, store, fates);
    } else {
      PurgeOneIsSafe(db.org.id, n, row, t, r, now, store, fates);
      ElsewhereLeaked(db, store, PurgeOne(row, now, store, fates).store, m, n);
      hide StillLeaked;
    }
  }

  lemma DropLeaked(row: Row, now: int, store: StoreState, fates: (StoreFate, StoreFate))
    requires row.status in {Published, Failed, Cancelled, Deleted}
    requires row.uploadId.Some? && row.audioKey.Some? && row.uploadId.value !in store.uploads
    ensures var one := PurgeOne(row, now, store, fates);
            one.store == store && (one.result.Ok? ==> !one.result.value.purged && one.result.value.draft.row == row)
  {
    assert Abort(store, row.uploadId.value) == store;
  }

  lemma StepLeaked(env: Env, s: Server, e: Event, now: int, commits: bool, m: nat, initial: nat)
    requires env.partSize > 0 && Inv(s, initial) && Leaked(s, m)
    ensures var o := Step(env, s, e, now, commits);
            && m in o.server.db.rows
            && StillLeaked(s.db.org.id, m, s.db.rows[m], s.store, o.server.db.rows[m], o.server.store)
            && (o.reply.Ok? && o.reply.value.Purged? ==> m !in o.reply.value.ids)
  {
    if e.Purge? {
      if ListsDue(s.db, e.order, now) {
        SweepLeaked(s.db, e.order, now, s.store, e.fates, m, initial);
      }
      hide Inv, PurgeAll, StillLeaked, Unique, ListsDue;
    } else if Request(e) {
      RequestLeaked(env, s, e, now, commits, m, initial);
      NoSweep(env, s, e, now, commits);
      hide Inv, Step, StillLeaked;
    } else if e.Put? {
      PutLeaked(env, s, e, now, commits, m, initial);
    } else {
      WorkerLeaked(env, s, e, now, commits, m, initial);
      hide Inv, Step, StillLeaked;
    }
  }

  /** The workers and a declaration are about other rows, and leave the store alone. */
  lemma WorkerLeaked(env: Env, s: Server, e: Event, now: int, commits: bool, m: nat, initial: nat)
    requires env.partSize > 0 && Inv(s, initial) && Leaked(s, m) && (e.Declare? || e.Transcribe? || e.Analyse?)
    ensures var o := Step(env, s, e, now, commits);
            && m in o.server.db.rows
            && StillLeaked(s.db.org.id, m, s.db.rows[m], s.store, o.server.db.rows[m], o.server.store)
            && (o.reply.Ok? ==> !o.reply.value.Purged?)
  {
    assert RowOk(s.db.org.id, m, s.db.rows[m], s.db.transcripts[m], s.db.reports[m]);
    hide Inv, Step;
    WorkerAside(env, s, e, now, commits, m);
  }

  lemma WorkerAside(env: Env, s: Server, e: Event, now: int, commits: bool, m: nat)
    requires env.partSize > 0 && m in s.db.rows && s.db.rows[m].status !in {Queued, Analyzing}
    requires e.Declare? || e.Transcribe? || e.Analyse?
    ensures var o := Step(env, s, e, now, commits);
            && o.server.store == s.store && m in o.server.db.rows && o.server.db.rows[m] == s.db.rows[m]
            && (o.reply.Ok? ==> !o.reply.value.Purged?)
  {
    hide TranscribeStage, AnalyseStage, Unique;
  }

  lemma NoSweep(env: Env, s: Server, e: Event, now: int, commits: bool)
    requires env.partSize > 0 && Request(e)
    ensures var o := Step(env, s, e, now, commits);
            o.reply.Ok? ==> !o.reply.value.Purged?
  {
    hide StartUpload, Finalize, Abandon, RemoveMeeting, RetryMeeting, Unique;
  }

  lemma PutLeaked(env: Env, s: Server, e: Event, now: int, commits: bool, m: nat, initial: nat)
    requires env.partSize > 0 && Inv(s, initial) && e.Put? && Leaked(s, m)
    ensures var o := Step(env, s, e, now, commits);
            && m in o.server.db.rows
            && StillLeaked(s.db.org.id, m, s.db.rows[m], s.store, o.server.db.rows[m], o.server.store)
            && (o.reply.Ok? ==> !o.reply.value.Purged?)
  {
  }

  /** From then on nothing frees it: over every later run, with whatever sweeps and whatever
      luck, the row keeps its key and its upload, the store keeps the object, and no sweep
      reports the meeting. */
  lemma {:induction false} LeakedForGood(env: Env, s: Server, later: seq<Tick>, next: Tick, m: nat, initial: nat)
    requires env.partSize > 0 && Inv(s, initial) && Leaked(s, m)
    ensures var t := Run(env, s, later);
            && Inv(t, initial) && Leaked(t, m) && t.db.org.id == s.db.org.id
            && StillLeaked(s.db.org.id, m, s.db.rows[m], s.store, t.db.rows[m], t.store)
            && var reply := Step(env, t, next.event, next.now, next.commits).reply;
               reply.Ok? && reply.value.Purged? ==> m !in reply.value.ids
    decreases |later|
  {
    hide Inv, Step;
    var t := Run(env, s, later);
    if later != [] {
      var last := later[|later| - 1];
      var before := Run(env, s, later[..|later| - 1]);
      LeakedForGood(env, s, later[..|later| - 1], last, m, initial);
      StepKeeps(env, before, last.event, last.now, last.commits, initial);
      RowsStay(env, before, last.event, last.now, last.commits, m);
      StepLeaked(env, before, last.event, last.now, last.commits, m, initial);
    }
    StepLeaked(env, t, next.event, next.now, next.commits, m, initial);
  }

  // ------------------------------------------------------------ how a recording leaks

  /** A finish that the store carried out and the database rolled back. */
  lemma RolledBackFinishLeaks(env: Env, s: Server, e: Event, now: int, initial: nat)
    requires env.partSize > 0 && Inv(s, initial) && e.Finish? && Visible(s.db, e.m, e.caller)
    requires ServiceOf(env, s, e, now).result.Ok?
    ensures var after := Step(env, s, e, now, false).server;
            Leaked(after, e.m) && AudioKey(s.db.org.id, e.m) in after.store.objects
  {
    var m, row := e.m, s.db.rows[e.m];
    assert RowOk(s.db.org.id, m, row, s.db.transcripts[m], s.db.reports[m]);
    assert Named(s.db.org.id, m, row, s.store);
    FinishIsSafe(s.db.org, m, row, s.db.transcripts[m], s.db.reports[m], e.caller, e.uploadId, e.tags, now,
                 s.store, e.fate, e.deletion);
    FinalizeDates(Load(s.db, m), s.db.org, e.caller, e.uploadId, e.tags, now, s.store, e.fate, e.deletion);
    hide Inv, Finalize, Unique, Keeps, Elsewhere;
  }

  /** A cancellation whose abort took effect while its answer was lost. */
  lemma LostAbortLeaks(env: Env, s: Server, e: Event, now: int, initial: nat)
    requires env.partSize > 0 && Inv(s, initial) && e.Cancel? && Visible(s.db, e.m, e.caller)
    requires s.db.rows[e.m].status == Uploading && s.db.rows[e.m].createdBy == e.caller.id
    requires s.db.rows[e.m].uploadId.Some? && e.fate == Refuses(true)
    ensures var after := Step(env, s, e, now, true).server;
            Leaked(after, e.m) && after.db.rows[e.m].status == Cancelled && DueForPurge(after.db.rows[e.m], now)
  {
    assert RowOk(s.db.org.id, e.m, s.db.rows[e.m], s.db.transcripts[e.m], s.db.reports[e.m]);
    InvUnique(s, initial);
    hide Inv, RowOk, Step, Abandon;
    RequestIsService(env, s, e, now, true);
    AbortedUnheard(s.db.rows[e.m], e, now, s.store);
  }

  lemma AbortedUnheard(row: Row, e: Event, now: int, store: StoreState)
    requires e.Cancel? && row.createdBy == e.caller.id && row.status == Uploading && e.fate == Refuses(true)
    requires row.uploadId.Some? && row.audioKey.Some?
    ensures var a := Abandon(Draft(row, []), e.caller, now, store, e.fate);
            && a.store == Abort(store, row.uploadId.value)
            && a.result.Ok? && a.result.value.row == row.(status := Cancelled)
  {
  }

  /** One meeting, and nothing transcribed. */
  ghost predicate Alone(s: Server, org: Organization, row: Row, store: StoreState) {
    && s.db.org == org && s.db.rows == map[0 := row] && s.store == store
    && s.db.transcripts == multiset{} && s.db.reports == multiset{}
  }

  function Declared0(org: Organization, author: User): Row {
    Row(0, org.id, author.id, false, Created, None, None, None, None, 0, 0, None, None, None, None)
  }

  function Started0(org: Organization, author: User, piece: Bytes, sha: nat): Row {
    Declared0(org, author).(status := Uploading, uploadId := Some(0), audioKey := Some(AudioKey(org.id, 0)),
                            audioSha := Some(sha), audioBytes := Some(|piece|))
  }

  function Stored0(org: Organization, parts: map<nat, Part>, tag: nat): StoreState {
    StoreState(map[], map[0 := Upload(AudioKey(org.id, 0), parts)], 1, tag)
  }

  lemma DeclaresAndStarts(env: Env, org: Organization, author: User, piece: Bytes, sha: nat, now: int)
    requires env.partSize > 0 && 0 < |piece| <= env.partSize
    ensures var s1 := Step(env, Fresh(org), Declare(0, author, false), now, true).server;
            var s2 := Step(env, s1, Start(0, author, Declared(|piece|, sha, 0, 0), Answers), now, true).server;
            Alone(s2, org, Started0(org, author, piece, sha), Stored0(org, map[], 0))
  {
    var s1 := Step(env, Fresh(org), Declare(0, author, false), now, true).server;
    assert Alone(s1, org, Declared0(org, author), EMPTY_STORE);
    CeilingStep(|piece|, env.partSize);
    assert PartCountFor(|piece|, env.partSize) == Ok(1);
    hide PartCountFor;
  }

  lemma PutsAndFinishes(env: Env, s: Server, org: Organization, author: User, piece: Bytes, sha: nat, now: int)
    requires env.partSize > 0 && Alone(s, org, Started0(org, author, piece, sha), Stored0(org, map[], 0))
    ensures var s3 := Step(env, s, Put(0, 0, 1, piece), now, true).server;
            var s4 := Step(env, s3, Finish(0, author, 0, [Confirmed(1, 0)], Answers, Answers), now, false).server;
            Alone(s4, org, Started0(org, author, piece, sha), StoreState(map[AudioKey(org.id, 0) := piece], map[], 1, 1))
  {
    var s3 := Step(env, s, Put(0, 0, 1, piece), now, true).server;
    var parts := map[1 := Part(piece, 0)];
    assert Alone(s3, org, Started0(org, author, piece, sha), Stored0(org, parts, 1));
    var tags := [Confirmed(1, 0)];
    assert tags[1..] == [] && SortByNumber(tags) == tags;
    assert Assemble(parts, []) == Some([]) && piece + [] == piece;
    assert Assemble(parts, tags) == Some(piece);
    hide SortByNumber, Assemble;
  }

  lemma CancelsInVain(env: Env, s: Server, org: Organization, author: User, row: Row, now: int)
    requires env.partSize > 0 && row.status == Uploading && row.uploadId == Some(0) && row.audioKey.Some?
    requires row.createdBy == author.id && Alone(s, org, row, s.store) && 0 !in s.store.uploads
    ensures Alone(Step(env, s, Cancel(0, author, Answers), now, true).server, org, row.(status := Cancelled), s.store)
  {
    assert Abort(s.store, 0) == s.store;
  }

  function LeakingTicks(author: User, piece: Bytes, sha: nat, now: int): seq<Tick> {
    [Tick(Declare(0, author, false), now, true),
     Tick(Start(0, author, Declared(|piece|, sha, 0, 0), Answers), now, true),
     Tick(Put(0, 0, 1, piece), now, true),
     Tick(Finish(0, author, 0, [Confirmed(1, 0)], Answers, Answers), now, false),
     Tick(Cancel(0, author, Answers), now, true)]
  }

  lemma {:induction false} RunNext(env: Env, s: Server, ticks: seq<Tick>, k: nat)
    requires env.partSize > 0 && k < |ticks|
    ensures Run(env, s, ticks[..k + 1])
            == Step(env, Run(env, s, ticks[..k]), ticks[k].event, ticks[k].now, ticks[k].commits).server
  {
    assert ticks[..k + 1][..k] == ticks[..k];
  }

  /** A run that leaves a cancelled recording in the store for good, though every call of it is
      answered: the finish is carried out by the store and rolled back by the database, and
      the abort of the upload that is not there any more is refused. */
  lemma LeakingRun(env: Env, org: Organization, author: User, piece: Bytes, sha: nat, now: int)
    requires env.partSize > 0 && 0 < |piece| <= env.partSize
    ensures var s := Run(env, Fresh(org), LeakingTicks(author, piece, sha, now));
            && Leaked(s, 0) && s.db.rows[0].status == Cancelled && DueForPurge(s.db.rows[0], now)
            && AudioKey(org.id, 0) in s.store.objects && s.store.objects[AudioKey(org.id, 0)] == piece
  {
    hide Step;
    var ticks := LeakingTicks(author, piece, sha, now);
    assert ticks[..0] == [] && ticks[..5] == ticks;
    RunNext(env, Fresh(org), ticks, 0);
    RunNext(env, Fresh(org), ticks, 1);
    RunNext(env, Fresh(org), ticks, 2);
    RunNext(env, Fresh(org), ticks, 3);
    RunNext(env, Fresh(org), ticks, 4);
    DeclaresAndStarts(env, org, author, piece, sha, now);
    var s2 := Run(env, Fresh(org), ticks[..2]);
    PutsAndFinishes(env, s2, org, author, piece, sha, now);
    var s4 := Run(env, Fresh(org), ticks[..4]);
    CancelsInVain(env, s4, org, author, Started0(org, author, piece, sha), now);
  }
}
