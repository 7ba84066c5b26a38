/** Publication under concurrency: any number of analysis tasks overlap on the same rows. A
    task reads its meeting once, charges the organization with one statement that adds to
    whatever is committed and keeps the row locked, and then commits or loses to the
    uniqueness of a meeting's report. */
module Billing {
  import opened Prelude
  import opened ObjectStore
  import M = Meetings
  import L = Lifecycle

  datatype Meeting = Meeting(status: M.Status, seconds: nat, transcribed: bool)

  /** A task between its first read and its end. */
  datatype Task =
    | Loaded(meeting: nat, seconds: nat, transcribed: bool)
    | Charged(meeting: nat, seconds: nat, total: nat)

  /** The committed rows of one organization, the open transactions, and which of them holds
      the lock on the organization's row. */
  datatype State = State(
    consumed: nat, ledger: seq<M.Entry>, reports: multiset<nat>, meetings: map<nat, Meeting>,
    tasks: map<nat, Task>, lock: Option<nat>)

  /** What the scheduler may do next. `Elsewhere` is any other transaction that writes the
      meeting's row: a retry, a deletion, a transcription, the purge. */
  datatype Event =
    | Begin(task: nat, meeting: nat)
    | GiveUp(task: nat)
    | Charge(task: nat)
    | Publish(task: nat)
    | Crash(task: nat)
    | Elsewhere(meeting: nat, row: Meeting)

  datatype Reply = Skipped | Opened | Waits | MarkedFailed | HoldsTheRow(total: nat)
    | Published(meeting: nat, seconds: nat) | RolledBack | Wrote

  function End(s: State, task: nat): State {
    s.(tasks := s.tasks - {task}, lock := if s.lock == Some(task) then None else s.lock)
  }

  function Step(s: State, e: Event): (State, Reply) {
    match e
    case Begin(task, m) =>
      // Delivered again, the task finds another state than ANALYZING.
      if task in s.tasks || m !in s.meetings || s.meetings[m].status != M.Analyzing then (s, Skipped)
      else
        var row := s.meetings[m];
        (s.(tasks := s.tasks[task := Loaded(m, row.seconds, row.transcribed)]), Opened)
    case GiveUp(task) =>
      // No transcript, or nothing could be extracted: nothing is charged.
      if task !in s.tasks || !s.tasks[task].Loaded? then (s, Skipped)
      else
        var m := s.tasks[task].meeting;
        var meetings := if m in s.meetings then s.meetings[m := s.meetings[m].(status := M.Failed)] else s.meetings;
        (End(s.(meetings := meetings), task), MarkedFailed)
    case Charge(task) =>
      if task !in s.tasks || !s.tasks[task].Loaded? || !s.tasks[task].transcribed then (s, Skipped)
      else if s.lock.Some? then (s, Waits)
      else
        var t := s.tasks[task];
        var total := s.consumed + t.seconds;
        (s.(tasks := s.tasks[task := Charged(t.meeting, t.seconds, total)], lock := Some(task)), HoldsTheRow(total))
    case Publish(task) =>
      if task !in s.tasks || !s.tasks[task].Charged? then (s, Skipped)
      else
        var t := s.tasks[task];
        if t.meeting in s.reports then (End(s, task), RolledBack)
        else
          var meetings := if t.meeting !in s.meetings then s.meetings
                          else s.meetings[t.meeting := s.meetings[t.meeting].(status := M.Published)];
          (End(s.(consumed := t.total, ledger := s.ledger + [M.Entry(t.meeting, t.seconds)],
                  reports := s.reports + multiset{t.meeting}, meetings := meetings), task),
           Published(t.meeting, t.seconds))
    case Crash(task) => (End(s, task), RolledBack)
    case Elsewhere(m, row) => (s.(meetings := s.meetings[m := row]), Wrote)
  }

  function Run(s: State, events: seq<Event>): State
    decreases |events|
  {
    if events == [] then s else Run(Step(s, events[0]).0, events[1..])
  }

  function Replies(s: State, events: seq<Event>): seq<Reply>
    decreases |events|
  {
    if events == [] then []
    else
      var (next, reply) := Step(s, events[0]);
      [reply] + Replies(next, events[1..])
  }

  // ------------------------------------------------------------ what every schedule keeps

  /** One entry per report and never two, the total is the sum of the entries, and whoever
      holds the row is about to write the committed total plus its own seconds. */
  ghost predicate Inv(s: State, initial: nat) {
    && s.consumed == initial + L.Billed(s.ledger)
    && (forall m :: L.EntriesFor(s.ledger, m) == s.reports[m] <= 1)
    && (forall t :: t in s.tasks && s.tasks[t].Charged? ==> s.lock == Some(t))
    && (forall t :: t in s.tasks && s.tasks[t].Charged? ==> s.tasks[t].total == s.consumed + s.tasks[t].seconds)
  }

  lemma StepKeeps(s: State, e: Event, initial: nat)
    requires Inv(s, initial)
    ensures Inv(Step(s, e).0, initial)
    ensures s.ledger <= Step(s, e).0.ledger
  {
    if e.Publish? && Step(s, e).1.Published? {
      PublishKeeps(s, e.task, initial);
    }
  }

  lemma PublishKeeps(s: State, task: nat, initial: nat)
    requires Inv(s, initial) && Step(s, Publish(task)).1.Published?
    ensures Inv(Step(s, Publish(task)).0, initial)
  {
    var t := s.tasks[task];
    var after := Step(s, Publish(task)).0;
    assert after.ledger[..|s.ledger|] == s.ledger;
    forall m ensures L.EntriesFor(after.ledger, m) == after.reports[m] <= 1 {
      assert L.EntriesFor(s.ledger, m) == s.reports[m];
    }
    assert forall u :: u in after.tasks ==> u != task && !s.tasks[u].Charged?;
  }

  /** Over every schedule of overlapping, redelivered and retried tasks: the organization was
      charged exactly its ledger, which never loses an entry. */
  lemma {:induction false} EverySchedule(s: State, events: seq<Event>, initial: nat)
    requires Inv(s, initial)
    ensures Inv(Run(s, events), initial)
    ensures s.ledger <= Run(s, events).ledger
    ensures Run(s, events).consumed == initial + L.Billed(Run(s, events).ledger)
    ensures forall m :: L.EntriesFor(Run(s, events).ledger, m) == Run(s, events).reports[m] <= 1
    decreases |events|
  {
    if events != [] {
      StepKeeps(s, events[0], initial);
      EverySchedule(Step(s, events[0]).0, events[1..], initial);
    }
  }

  /** How many tasks answered that they published this meeting. */
  function Publications(replies: seq<Reply>, m: nat): nat {
    if replies == [] then 0
    else (if replies[0].Published? && replies[0].meeting == m then 1 else 0) + Publications(replies[1..], m)
  }

  /** A task that answers that it published is the only one that ever does, and every report
      that appears has such a task behind it. */
  lemma {:induction false} PublishedOnce(s: State, events: seq<Event>, initial: nat, m: nat)
    requires Inv(s, initial)
    ensures s.reports[m] + Publications(Replies(s, events), m) == Run(s, events).reports[m]
    ensures Publications(Replies(s, events), m) <= 1
    decreases |events|
  {
    if events == [] {
      assert s.reports[m] <= 1;
    } else {
      hide Step;
      var (next, reply) := Step(s, events[0]);
      var replies := Replies(next, events[1..]);
      StepKeeps(s, events[0], initial);
      StepPublishes(s, events[0], m, initial);
      PublishedOnce(next, events[1..], initial, m);
      assert Replies(s, events)[1..] == replies;
      EverySchedule(s, events, initial);
      assert L.EntriesFor(Run(s, events).ledger, m) == Run(s, events).reports[m];
    }
  }

  lemma StepPublishes(s: State, e: Event, m: nat, initial: nat)
    requires Inv(s, initial)
    ensures var (next, reply) := Step(s, e);
            && next.reports[m] == s.reports[m] + (if reply.Published? && reply.meeting == m then 1 else 0)
            && next.consumed == s.consumed + (if reply.Published? then reply.seconds else 0)
  {
  }

  /** The total rises by exactly what was answered as published, whoever overlapped. */
  function SecondsPublished(replies: seq<Reply>): nat {
    if replies == [] then 0
    else (if replies[0].Published? then replies[0].seconds else 0) + SecondsPublished(replies[1..])
  }

  lemma {:induction false} NoChargeIsLost(s: State, events: seq<Event>, initial: nat)
    requires Inv(s, initial)
    ensures Run(s, events).consumed == s.consumed + SecondsPublished(Replies(s, events))
    decreases |events|
  {
    if events != [] {
      hide Step;
      var (next, reply) := Step(s, events[0]);
      StepKeeps(s, events[0], initial);
      StepPublishes(s, events[0], 0, initial);
      NoChargeIsLost(next, events[1..], initial);
      assert Replies(s, events)[1..] == Replies(next, events[1..]);
    }
  }

  /** A task that loses to a report already there takes its charge back with it. */
  lemma LoserPaysNothing(s: State, task: nat, initial: nat)
    requires Inv(s, initial) && task in s.tasks && s.tasks[task].Charged?
    ensures var (after, reply) := Step(s, Publish(task));
            && (reply == RolledBack <==> s.reports[s.tasks[task].meeting] == 1)
            && (reply == RolledBack ==>
                  after.consumed == s.consumed && after.ledger == s.ledger && after.reports == s.reports
                  && after.meetings == s.meetings && after.lock.None?)
            && (reply != RolledBack ==> after.consumed == s.consumed + s.tasks[task].seconds)
  {
    assert s.reports[s.tasks[task].meeting] <= 1;
  }

  /** While one task holds the row nobody else can charge; once it ends, another can, and it
      adds to what the first one left. */
  lemma ChargesQueue(s: State, first: nat, second: nat, initial: nat)
    requires Inv(s, initial) && first != second
    requires first in s.tasks && s.tasks[first].Charged?
    requires second in s.tasks && s.tasks[second].Loaded? && s.tasks[second].transcribed
    ensures Step(s, Charge(second)) == (s, Waits)
    ensures var between := Step(s, Publish(first)).0;
            && Step(between, Charge(second)).1 == HoldsTheRow(between.consumed + s.tasks[second].seconds)
            && var aborted := Step(s, Crash(first)).0;
               Step(aborted, Charge(second)).1 == HoldsTheRow(s.consumed + s.tasks[second].seconds)
  {
  }

  /** A task without a report marks its meeting failed and charges nothing. */
  lemma NoReportNoCharge(s: State, task: nat)
    requires task in s.tasks && s.tasks[task].Loaded?
    ensures var (after, reply) := Step(s, GiveUp(task));
            var m := s.tasks[task].meeting;
            && reply == MarkedFailed && task !in after.tasks
            && after.consumed == s.consumed && after.ledger == s.ledger && after.reports == s.reports
            && (m in s.meetings ==> m in after.meetings && after.meetings[m] == s.meetings[m].(status := M.Failed))
            && (forall n :: n in s.meetings && n != m ==> n in after.meetings && after.meetings[n] == s.meetings[n])
  {
  }

  /** A task bills the seconds it read when it began, whatever is written to the row since. */
  lemma BillsWhatItRead(s: State, task: nat, m: nat, row: Meeting, later: Meeting)
    requires task !in s.tasks && s.lock.None? && s.reports[m] == 0 && row.status == M.Analyzing && row.transcribed
    ensures var s1 := Step(s, Elsewhere(m, row)).0;
            var (s2, began) := Step(s1, Begin(task, m));
            var s3 := Step(s2, Elsewhere(m, later)).0;
            var s4 := Step(s3, Charge(task)).0;
            var (s5, reply) := Step(s4, Publish(task));
            && began == Opened && reply == Published(m, row.seconds)
            && s5.ledger == s.ledger + [M.Entry(m, row.seconds)] && s5.consumed == s.consumed + row.seconds
            && m in s3.meetings && s3.meetings[m] == later
  {
  }

  /** A task that got as far as a report and finds the row free is billed and recorded,
      whatever the quota says. */
  lemma AReportIsRecorded(s: State, task: nat, initial: nat)
    requires Inv(s, initial) && s.lock.None?
    requires task in s.tasks && s.tasks[task].Loaded? && s.tasks[task].transcribed
    requires s.reports[s.tasks[task].meeting] == 0
    ensures var t := s.tasks[task];
            var after := Run(s, [Charge(task), Publish(task)]);
            && after.consumed == s.consumed + t.seconds
            && after.ledger == s.ledger + [M.Entry(t.meeting, t.seconds)]
            && after.reports == s.reports + multiset{t.meeting}
            && after.lock.None? && after.tasks == s.tasks - {task}
            && after.meetings == (if t.meeting in s.meetings
                                  then s.meetings[t.meeting := s.meetings[t.meeting].(status := M.Published)]
                                  else s.meetings)
  {
    var s1 := Step(s, Charge(task)).0;
    var s2 := Step(s1, Publish(task)).0;
    assert s2.tasks == s.tasks - {task};
    Unroll(s, [Charge(task), Publish(task)], s2, [s, s1, s2]);
  }

  /** A run is its steps, one after the other. */
  lemma {:induction false} Unroll(s: State, events: seq<Event>, last: State, states: seq<State>)
    requires |states| == |events| + 1 && states[0] == s && states[|events|] == last
    requires forall i :: 0 <= i < |events| ==> Step(states[i], events[i]).0 == states[i + 1]
    ensures Run(s, events) == last
    decreases |events|
  {
    if events != [] {
      Unroll(states[1], events[1..], last, states[1..]);
    }
  }

  // ------------------------------------------------------------ alone, it is the serial stage

  function View(db: M.Db): State {
    State(db.org.consumed, db.ledger, db.reports,
          map m | m in db.rows :: Meeting(db.rows[m].status, db.rows[m].duration, db.transcripts[m] > 0),
          map[], None)
  }

  /** A task that nobody overlaps does what the serial analysis stage does. */
  lemma AloneIsSerial(env: M.Env, s: M.Server, m: nat, now: int, initial: nat, task: nat)
    requires env.partSize > 0 && L.Inv(s, initial)
    requires m in s.db.rows && s.db.rows[m].status == M.Analyzing
    ensures Run(View(s.db), [Begin(task, m), Charge(task), Publish(task)])
         == View(M.Step(env, s, M.Analyse(m, M.Report), now, true).server.db)
  {
    hide M.Step, Run;
    var v := View(s.db);
    var after := M.Step(env, s, M.Analyse(m, M.Report), now, true).server.db;
    AnalyzingCounts(s.db, m);
    SerialPublication(env, s, m, now, initial);
    hide L.Inv;
    Alone(v, m, task);
    var row := v.meetings[m];
    assert v.meetings[m := row.(status := M.Published)] == View(after).meetings;
  }

  lemma AnalyzingCounts(db: M.Db, m: nat)
    requires L.RowsOk(db) && m in db.rows && db.rows[m].status == M.Analyzing
    ensures db.transcripts[m] == 1 && db.reports[m] == 0
  {
    assert L.RowOk(db.org.id, m, db.rows[m], db.transcripts[m], db.reports[m]);
  }

  lemma Alone(v: State, m: nat, task: nat)
    requires v.tasks == map[] && v.lock.None? && v.reports[m] == 0
    requires m in v.meetings && v.meetings[m].status == M.Analyzing && v.meetings[m].transcribed
    ensures Run(v, [Begin(task, m), Charge(task), Publish(task)])
         == State(v.consumed + v.meetings[m].seconds, v.ledger + [M.Entry(m, v.meetings[m].seconds)],
                  v.reports + multiset{m}, v.meetings[m := v.meetings[m].(status := M.Published)], map[], None)
  {
    var s1 := Step(v, Begin(task, m)).0;
    var s2 := Step(s1, Charge(task)).0;
    var s3 := Step(s2, Publish(task)).0;
    assert s3.tasks == map[];
    Unroll(v, [Begin(task, m), Charge(task), Publish(task)], s3, [v, s1, s2, s3]);
  }

  lemma SerialPublication(env: M.Env, s: M.Server, m: nat, now: int, initial: nat)
    requires env.partSize > 0 && L.Inv(s, initial)
    requires m in s.db.rows && s.db.rows[m].status == M.Analyzing
    ensures var after := M.Step(env, s, M.Analyse(m, M.Report), now, true).server.db;
            && after.org.consumed == s.db.org.consumed + s.db.rows[m].duration
            && after.ledger == s.db.ledger + [M.Entry(m, s.db.rows[m].duration)]
            && after.reports == s.db.reports + multiset{m} && after.transcripts == s.db.transcripts
            && after.rows.Keys == s.db.rows.Keys
            && after.rows[m].status == M.Published && after.rows[m].duration == s.db.rows[m].duration
            && forall n :: n in s.db.rows && n != m ==> after.rows[n] == s.db.rows[n]
  {
    assert L.RowOk(s.db.org.id, m, s.db.rows[m], s.db.transcripts[m], s.db.reports[m]);
    PublishedRow(s.db.rows[m], now);
    var staged := M.AnalyseStage(M.Load(s.db, m), now, true, M.Report);
    hide M.AnalyseStage, L.RowOk;
    var db := M.Charge(M.Save(s.db, m, staged.draft), m, s.db.rows[m].duration);
    StaysUnique(s.db, db, m);
    hide M.Unique, L.Inv;
    assert M.Step(env, s, M.Analyse(m, M.Report), now, true) == M.Commit(s, db, s.store, true, M.Done);
  }

  lemma PublishedRow(row: M.Row, now: int)
    requires row.status == M.Analyzing
    ensures var staged := M.AnalyseStage(M.Draft(row, []), now, true, M.Report);
            && staged.Commits? && staged.wrote && staged.failure.None?
            && staged.draft.row == row.(status := M.Published, completedAt := Some(now))
  {
  }

  lemma StaysUnique(before: M.Db, after: M.Db, m: nat)
    requires L.RowsOk(before) && before.reports[m] == 0
    requires after.transcripts == before.transcripts && after.reports == before.reports + multiset{m}
    ensures M.Unique(after)
  {
    forall n ensures after.transcripts[n] <= 1 && after.reports[n] <= 1 {
      if n in before.rows {
        assert L.RowOk(before.org.id, n, before.rows[n], before.transcripts[n], before.reports[n]);
      }
    }
  }
}
