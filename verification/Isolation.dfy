/** What requests other than its own uploader's can do to a meeting being uploaded: remove
    things, never add or rewrite them. */
module Isolation {
  import opened Prelude
  import opened Assembly
  import opened ObjectStore
  import opened Meetings
  import opened Lifecycle

  /** Anything but starting, filling or finishing this meeting. */
  predicate Foreign(e: Event, m: nat) {
    (e.Start? || e.Finish? || e.Put?) ==> e.m != m
  }

  /** Meeting `m` before and after: its row keeps what was declared, its key and its upload
      can only be lost, and the store only lost what it held under its key. */
  ghost predicate Frame(a: Server, b: Server, m: nat)
    requires m in a.db.rows
  {
    && m in b.db.rows && b.db.org.id == a.db.org.id
    && RowFrame(a.db.rows[m], b.db.rows[m])
    && StoreFrame(a.store, b.store, AudioKey(a.db.org.id, m))
    && UploadFrame(a.db.rows[m], b.db.rows[m], b.store)
  }

  predicate RowFrame(a: Row, b: Row) {
    && b.createdBy == a.createdBy && b.isPrivate == a.isPrivate
    && b.audioSha == a.audioSha && b.audioBytes == a.audioBytes
    && (b.audioKey.Some? ==> a.audioKey.Some?)
    && (b.status == Uploading ==> a.status == Uploading && b.duration == a.duration && b.paused == a.paused)
    && (b.status in {Created, QuotaHold} ==> b.status == a.status)
  }

  ghost predicate StoreFrame(a: StoreState, b: StoreState, key: Key) {
    && (key in b.objects ==> key in a.objects && b.objects[key] == a.objects[key])
    && (forall u :: u in b.uploads && b.uploads[u].key == key ==> u in a.uploads && a.uploads[u] == b.uploads[u])
    && (forall u :: u in b.uploads && u in a.uploads && a.uploads[u].key == key ==> b.uploads[u] == a.uploads[u])
    && (forall u :: u in b.uploads && u !in a.uploads ==> a.nextUpload <= u)
    && a.nextUpload <= b.nextUpload
  }

  /** The row forgets an upload only once the store has. */
  predicate UploadFrame(a: Row, b: Row, after: StoreState) {
    || b.uploadId == a.uploadId
    || (b.uploadId.None? && a.uploadId.Some? && a.uploadId.value !in after.uploads)
  }

  lemma ElsewhereIsFrame(a: StoreState, b: StoreState, touched: Key, key: Key)
    requires Elsewhere(a, b, touched) && touched != key
    ensures StoreFrame(a, b, key)
  {
  }

  /** A request about another meeting. */
  lemma OtherRequest(env: Env, s: Server, e: Event, now: int, commits: bool, m: nat, initial: nat)
    requires env.partSize > 0 && Inv(s, initial) && m in s.db.rows && Request(e) && e.m != m
    ensures Frame(s, Step(env, s, e, now, commits).server, m)
  {
    hide Inv, Unique, ServiceOf;
    if Visible(s.db, e.m, e.caller) {
      ServiceIsSafe(env, s, e, now, initial);
      RequestIsService(env, s, e, now, commits);
      ElsewhereIsFrame(s.store, ServiceOf(env, s, e, now).store, AudioKey(s.db.org.id, e.m), AudioKey(s.db.org.id, m));
      hide Step;
    } else {
      UnseenChangesNothing(env, s, e, now, commits);
      hide Step;
    }
  }

  lemma UnseenChangesNothing(env: Env, s: Server, e: Event, now: int, commits: bool)
    requires env.partSize > 0 && Request(e) && !Visible(s.db, e.m, e.caller)
    ensures Step(env, s, e, now, commits).server == s
  {
  }

  /** Cancelling, deleting or retrying the meeting itself. */
  lemma OwnRequest(env: Env, s: Server, e: Event, now: int, commits: bool, initial: nat)
    requires env.partSize > 0 && Inv(s, initial) && (e.Cancel? || e.Remove? || e.Retry?) && e.m in s.db.rows
    ensures Frame(s, Step(env, s, e, now, commits).server, e.m)
  {
    if Visible(s.db, e.m, e.caller) {
      RequestIsService(env, s, e, now, commits);
      OwnService(env, s, e, now);
    }
  }

  lemma OwnService(env: Env, s: Server, e: Event, now: int)
    requires env.partSize > 0 && (e.Cancel? || e.Remove? || e.Retry?) && e.m in s.db.rows
    ensures var a := ServiceOf(env, s, e, now);
            && StoreFrame(s.store, a.store, AudioKey(s.db.org.id, e.m))
            && UploadFrame(s.db.rows[e.m], s.db.rows[e.m], a.store)
            && (a.result.Ok? ==>
                  && RowFrame(s.db.rows[e.m], a.result.value.row)
                  && UploadFrame(s.db.rows[e.m], a.result.value.row, a.store))
  {
  }

  lemma WorkerFrame(env: Env, s: Server, e: Event, now: int, commits: bool, m: nat)
    requires env.partSize > 0 && m in s.db.rows && (e.Transcribe? || e.Analyse?)
    ensures Frame(s, Step(env, s, e, now, commits).server, m)
  {
    hide Unique, TranscribeStage, AnalyseStage, Advance;
    if e.m in s.db.rows {
      var d := Load(s.db, e.m);
      if e.Transcribe? {
        TranscribeRowFrame(env, d, now, s.store, e.reachable, e.heard);
      } else {
        AnalyseRowFrame(d, now, s.db.transcripts[e.m] > 0, e.extracted);
      }
    }
  }

  predicate StageFrame(row: Row, stage: Staged) {
    stage.Commits? ==> RowFrame(row, stage.draft.row) && stage.draft.row.uploadId == row.uploadId
  }

  lemma TranscribeRowFrame(env: Env, d: Draft, now: int, store: StoreState, reachable: bool, heard: Heard)
    ensures StageFrame(d.row, TranscribeStage(env, d, now, store, reachable, heard))
  {
  }

  lemma AnalyseRowFrame(d: Draft, now: int, transcribed: bool, extracted: Extracted)
    ensures StageFrame(d.row, AnalyseStage(d, now, transcribed, extracted))
  {
  }

  lemma PurgeOneRowFrame(row: Row, now: int, store: StoreState, fates: (StoreFate, StoreFate))
    requires row.status in {Published, Failed, Cancelled, Deleted}
    ensures var a := PurgeOne(row, now, store, fates);
            a.result.Ok? ==> RowFrame(row, a.result.value.draft.row) && UploadFrame(row, a.result.value.draft.row, a.store)
  {
  }

  lemma {:induction false} PurgeFrame(
      db: Db, order: seq<nat>, now: int, store: StoreState, fates: nat -> (StoreFate, StoreFate), m: nat)
    requires m in db.rows
    ensures var a := PurgeAll(db, order, now, store, fates);
            a.result.Ok? ==>
              && m in a.result.value.0.rows && a.result.value.0.org == db.org
              && RowFrame(db.rows[m], a.result.value.0.rows[m])
              && UploadFrame(db.rows[m], a.result.value.0.rows[m], a.store)
    decreases |order|
  {
    if order != [] {
      if order[0] !in db.rows || !DueForPurge(db.rows[order[0]], now) {
        PurgeFrame(db, order[1..], now, store, fates, m);
      } else {
        var one := PurgeOne(db.rows[order[0]], now, store, fates(order[0]));
        PurgeOneRowFrame(db.rows[order[0]], now, store, fates(order[0]));
        if one.result.Ok? {
          var next := Save(db, order[0], one.result.value.draft);
          PurgeFrame(next, order[1..], now, one.store, fates, m);
          PurgeShrinks(next, order[1..], now, one.store, fates);
        }
      }
    }
  }

  lemma SweepFrame(env: Env, s: Server, e: Event, now: int, commits: bool, m: nat)
    requires env.partSize > 0 && m in s.db.rows && e.Purge?
    ensures Frame(s, Step(env, s, e, now, commits).server, m)
  {
    hide Unique, PurgeAll, ListsDue;
    PurgeFrame(s.db, e.order, now, s.store, e.fates, m);
    PurgeShrinks(s.db, e.order, now, s.store, e.fates);
  }

  lemma PutFrame(env: Env, s: Server, e: Event, now: int, commits: bool, m: nat, initial: nat)
    requires env.partSize > 0 && Inv(s, initial) && m in s.db.rows && e.Put? && e.m != m
    ensures Frame(s, Step(env, s, e, now, commits).server, m)
  {
    if e.m in s.db.rows && s.db.rows[e.m].uploadId == Some(e.uploadId) && e.uploadId in s.store.uploads {
      assert Named(s.db.org.id, e.m, s.db.rows[e.m], s.store);
      assert s.store.uploads[e.uploadId].key == AudioKey(s.db.org.id, e.m);
    }
  }

  /** Whatever else happens on the server between two attempts. */
  lemma ForeignFrame(env: Env, s: Server, e: Event, now: int, commits: bool, m: nat, initial: nat)
    requires env.partSize > 0 && Inv(s, initial) && m in s.db.rows && Foreign(e, m)
    ensures Frame(s, Step(env, s, e, now, commits).server, m)
  {
    if e.Purge? {
      SweepFrame(env, s, e, now, commits, m);
    } else if e.Transcribe? || e.Analyse? {
      WorkerFrame(env, s, e, now, commits, m);
    } else if e.Put? {
      PutFrame(env, s, e, now, commits, m, initial);
    } else if Request(e) {
      if e.m == m {
        OwnRequest(env, s, e, now, commits, initial);
      } else {
        OtherRequest(env, s, e, now, commits, m, initial);
      }
    }
  }
}
