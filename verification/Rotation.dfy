/** Refresh-token rotation under concurrency: any number of refreshes and sign-outs overlap. A
    refresh decides by the row it looked up and locks nothing, so another transaction may
    commit between its look and its own commit. */
module Rotation {
  import opened Prelude
  import T = Tokens

  /** An open transaction: it has looked its token up, will write that token's use and a
      replacement, is to revoke a family, or has gathered the tokens it will revoke. */
  datatype Task =
    | Looked(token: nat, row: T.Token, now: int)
    | Spending(token: nat, row: T.Token, now: int)
    | Condemning(family: nat, now: int, error: Option<T.AuthError>)
    | Revoking(ids: set<nat>, now: int, error: Option<T.AuthError>)

  /** The committed table and the open transactions. */
  datatype State = State(table: T.Table, tasks: map<nat, Task>, ttl: nat)

  datatype Event =
    | Look(task: nat, token: nat, now: int)
    | LookOut(task: nat, token: nat, now: int)
    | Decide(task: nat)
    | Gather(task: nat)
    | Commit(task: nat, commits: bool)
    | Enter(user: nat, now: int)
    | Ban(user: nat)

  datatype Reply = Nothing | Refused(error: T.AuthError) | SignedOut | Exchanged(token: nat, replacement: nat)

  function End(s: State, task: nat): State {
    s.(tasks := s.tasks - {task})
  }

  /** Writing the use of a token touches that column alone, whatever became of the others. */
  function Spend(t: T.Table, token: nat, row: T.Token, now: int, ttl: nat): T.Table
    requires token in t.tokens
  {
    T.Issue(t.(tokens := t.tokens[token := t.tokens[token].(used := Some(now))]), row.user, row.family, now, ttl)
  }

  function Revoke(t: T.Table, ids: set<nat>, now: int): T.Table {
    t.(tokens := map k | k in t.tokens :: if k in ids then t.tokens[k].(revoked := Some(now)) else t.tokens[k])
  }

  function Step(s: State, e: Event): (State, Reply) {
    match e
    case Look(task, token, now) =>
      if task in s.tasks then (s, Nothing)
      else if token !in s.table.tokens then (s, Refused(T.Invalid))
      else (s.(tasks := s.tasks[task := Looked(token, s.table.tokens[token], now)]), Nothing)
    case LookOut(task, token, now) =>
      if task in s.tasks then (s, Nothing)
      else if token !in s.table.tokens then (s, SignedOut)
      else (s.(tasks := s.tasks[task := Condemning(s.table.tokens[token].family, now, None)]), Nothing)
    case Decide(task) =>
      if task !in s.tasks || !s.tasks[task].Looked? then (s, Nothing)
      else
        var Looked(token, row, now) := s.tasks[task];
        if row.used.Some? then (s.(tasks := s.tasks[task := Condemning(row.family, now, Some(T.Reused))]), Nothing)
        else if row.revoked.Some? then (End(s, task), Refused(T.Invalid))
        else if row.expires <= now then (End(s, task), Refused(T.Expired))
        else if row.user in s.table.banned then
          (s.(tasks := s.tasks[task := Condemning(row.family, now, Some(T.AccountRevoked))]), Nothing)
        else (s.(tasks := s.tasks[task := Spending(token, row, now)]), Nothing)
    case Gather(task) =>
      if task !in s.tasks || !s.tasks[task].Condemning? then (s, Nothing)
      else
        var Condemning(family, now, error) := s.tasks[task];
        var ids := set k | k in s.table.tokens && s.table.tokens[k].family == family && s.table.tokens[k].revoked.None?;
        (s.(tasks := s.tasks[task := Revoking(ids, now, error)]), Nothing)
    case Commit(task, commits) =>
      if task !in s.tasks then (s, Nothing)
      else if !commits then (End(s, task), Refused(T.Uncommitted))
      else
        (match s.tasks[task]
        case Spending(token, row, now) =>
          if token !in s.table.tokens then (s, Nothing)
          else (End(s.(table := Spend(s.table, token, row, now, s.ttl)), task), Exchanged(token, s.table.nextToken))
        case Revoking(ids, now, error) =>
          (End(s.(table := Revoke(s.table, ids, now)), task), if error.Some? then Refused(error.value) else SignedOut)
        case _ => (s, Nothing))
    case Enter(user, now) => (s.(table := T.SignIn(s.table, user, now, s.ttl)), Nothing)
    case Ban(user) => (s.(table := s.table.(banned := s.table.banned + {user})), Nothing)
  }

  function Run(s: State, events: seq<Event>): State
    decreases |events|
  {
    if events == [] then s else Run(Step(s, events[0]).0, events[1..])
  }

  /** Numbers are handed out once, and a task's token exists, in the family it was read in. */
  ghost predicate Formed(s: State) {
    && (forall k :: k in s.table.tokens ==> k < s.table.nextToken && s.table.tokens[k].family < s.table.nextFamily)
    && (forall t :: t in s.tasks && (s.tasks[t].Looked? || s.tasks[t].Spending?) ==>
          && s.tasks[t].token in s.table.tokens
          && s.tasks[t].row.family == s.table.tokens[s.tasks[t].token].family)
  }

  /** Tokens stay, in their family, and none becomes live again. */
  ghost predicate Ages(a: T.Table, b: T.Table) {
    forall k :: k in a.tokens ==>
      && k in b.tokens && b.tokens[k].family == a.tokens[k].family
      && (!T.IsLive(a.tokens[k]) ==> !T.IsLive(b.tokens[k]))
  }

  lemma StepAges(s: State, e: Event)
    requires Formed(s)
    ensures Formed(Step(s, e).0) && Ages(s.table, Step(s, e).0.table)
  {
    TableAges(s, e);
    TasksStayFormed(s, e);
    hide Step;
  }

  lemma TableAges(s: State, e: Event)
    requires Formed(s)
    ensures var after := Step(s, e).0.table;
            && Ages(s.table, after)
            && forall k :: k in after.tokens ==> k < after.nextToken && after.tokens[k].family < after.nextFamily
  {
  }

  /** A task that has looked goes on with what it saw, or saw it just now. */
  lemma TasksStayFormed(s: State, e: Event)
    requires Formed(s)
    ensures forall t :: t in Step(s, e).0.tasks && (Step(s, e).0.tasks[t].Looked? || Step(s, e).0.tasks[t].Spending?) ==>
              && Step(s, e).0.tasks[t].token in s.table.tokens
              && Step(s, e).0.tasks[t].row.family == s.table.tokens[Step(s, e).0.tasks[t].token].family
  {
    hide Spend, Revoke, T.SignIn;
  }

  // ------------------------------------------------------------ a refresh that nothing overlaps

  /** Its steps one after the other are the serial refresh. */
  lemma AloneIsSerial(s: State, task: nat, token: nat, now: int, commits: bool)
    requires Formed(s) && task !in s.tasks
    ensures var alone := Run(s, [Look(task, token, now), Decide(task), Gather(task), Commit(task, commits)]);
            alone.table == T.Refresh(s.table, token, now, s.ttl, commits).table && alone.tasks == s.tasks
  {
    FourSteps(s, Look(task, token, now), Decide(task), Gather(task), Commit(task, commits));
    if token in s.table.tokens {
      var row := s.table.tokens[token];
      var looked := Step(s, Look(task, token, now)).0;
      DecidesAlone(looked, task, token, row, now, commits);
      assert looked.tasks - {task} == s.tasks;
    } else {
      hide Run;
    }
  }

  lemma DecidesAlone(s: State, task: nat, token: nat, row: T.Token, now: int, commits: bool)
    requires task in s.tasks && s.tasks[task] == Looked(token, row, now)
    requires token in s.table.tokens && row == s.table.tokens[token]
    ensures var after := Step(Step(Step(s, Decide(task)).0, Gather(task)).0, Commit(task, commits)).0;
            after.table == T.Refresh(s.table, token, now, s.ttl, commits).table && after.tasks == s.tasks - {task}
  {
    hide Revoke, T.RevokeFamily, T.Issue;
    GatheredFamily(s.table, row.family, now);
    var decided := Step(s, Decide(task)).0;
    if task in decided.tasks {
      assert decided.tasks - {task} == s.tasks - {task};
      var gathered := Step(decided, Gather(task)).0;
      assert gathered.tasks - {task} == s.tasks - {task};
    }
  }

  /** And answers what the serial one does. */
  lemma AloneAnswersTheSame(s: State, task: nat, token: nat, now: int, commits: bool)
    requires Formed(s) && task !in s.tasks
    ensures var (s1, r1) := Step(s, Look(task, token, now));
            var (s2, r2) := Step(s1, Decide(task));
            var (s3, _) := Step(s2, Gather(task));
            var (_, r4) := Step(s3, Commit(task, commits));
            var reply := if r1 != Nothing then r1 else if r2 != Nothing then r2 else r4;
            match T.Refresh(s.table, token, now, s.ttl, commits).result
            case Err(e) => reply == Refused(e)
            case Ok(issued) => issued.Some? && reply == Exchanged(token, issued.value)
  {
    hide Revoke, T.RevokeFamily, T.Issue;
  }

  /** So is a sign-out, and the rest is one step anyway. */
  lemma SignOutAloneIsSerial(s: State, task: nat, token: nat, now: int, user: nat)
    requires Formed(s) && task !in s.tasks
    ensures var (s1, r1) := Step(s, LookOut(task, token, now));
            var s2 := Step(s1, Gather(task)).0;
            var (s3, r3) := Step(s2, Commit(task, true));
            && s3.table == T.SignOut(s.table, token, now) && s3.tasks == s.tasks
            && (r1 == SignedOut || r3 == SignedOut)
    ensures Step(s, Enter(user, now)).0.table == T.Step(s.table, T.Enter(user, now), s.ttl).table
    ensures Step(s, Ban(user)).0.table == T.Step(s.table, T.Ban(user), s.ttl).table
  {
    hide Revoke, T.RevokeFamily;
    if token in s.table.tokens {
      GatheredFamily(s.table, s.table.tokens[token].family, now);
      var s1 := Step(s, LookOut(task, token, now)).0;
      var s2 := Step(s1, Gather(task)).0;
      assert s2.tasks - {task} == s.tasks;
    }
  }

  /** One transaction at a time has a name: looking again with the same name changes nothing. */
  lemma NamesAreTaken(s: State, task: nat, token: nat, now: int)
    requires task in s.tasks
    ensures Step(s, Look(task, token, now)) == (s, Nothing) && Step(s, LookOut(task, token, now)) == (s, Nothing)
  {
  }

  lemma GatheredFamily(t: T.Table, family: nat, now: int)
    ensures var ids := set k | k in t.tokens && t.tokens[k].family == family && t.tokens[k].revoked.None?;
            Revoke(t, ids, now) == T.RevokeFamily(t, family, now)
  {
  }

  lemma FourSteps(s: State, a: Event, b: Event, c: Event, d: Event)
    ensures Run(s, [a, b, c, d]) == Step(Step(Step(Step(s, a).0, b).0, c).0, d).0
  {
    hide Step;
    assert [a, b, c, d][1..] == [b, c, d] && [b, c, d][1..] == [c, d] && [c, d][1..] == [d] && [d][1..] == [];
    assert Run(Step(Step(Step(s, a).0, b).0, c).0, [d]) == Run(Step(Step(Step(Step(s, a).0, b).0, c).0, d).0, []);
    assert Run(Step(Step(s, a).0, b).0, [c, d]) == Run(Step(Step(Step(s, a).0, b).0, c).0, [d]);
    assert Run(Step(s, a).0, [b, c, d]) == Run(Step(Step(s, a).0, b).0, [c, d]);
  }

  // ------------------------------------------------------------ a second exchange

  /** This open refresh will still exchange `k`: it looked while `k` was live, and its member
      belonged when it last asked. */
  predicate CanStill(s: State, task: nat, k: nat) {
    && task in s.tasks
    && match s.tasks[task]
       case Spending(token, _, _) => token == k
       case Looked(token, row, now) =>
         token == k && T.IsLive(row) && now < row.expires && row.user !in s.table.banned
       case _ => false
  }

  predicate Exchanges(s: State, events: seq<Event>, k: nat)
    decreases |events|
  {
    events != []
    && var (next, reply) := Step(s, events[0]);
       (reply.Exchanged? && reply.token == k) || Exchanges(next, events[1..], k)
  }

  /** Whoever looks at a token that is not live any more cannot exchange it. */
  lemma StepAddsNobody(s: State, e: Event, k: nat, task: nat)
    requires Formed(s) && k in s.table.tokens && !T.IsLive(s.table.tokens[k])
    ensures CanStill(Step(s, e).0, task, k) ==> CanStill(s, task, k)
    ensures var reply := Step(s, e).1;
            reply.Exchanged? && reply.token == k ==> e.Commit? && CanStill(s, e.task, k)
  {
  }

  lemma {:induction false} NobodyLeft(s: State, events: seq<Event>, k: nat)
    requires Formed(s) && k in s.table.tokens && !T.IsLive(s.table.tokens[k])
    requires forall task :: !CanStill(s, task, k)
    ensures !Exchanges(s, events, k)
    decreases |events|
  {
    if events != [] {
      hide CanStill, Step, Formed;
      var next := Step(s, events[0]).0;
      StepAges(s, events[0]);
      forall task ensures !CanStill(next, task, k) {
        StepAddsNobody(s, events[0], k, task);
      }
      StepAddsNobody(s, events[0], k, 0);
      NobodyLeft(next, events[1..], k);
    }
  }

  lemma OneExchanges(s: State, task: nat, k: nat)
    requires Formed(s) && CanStill(s, task, k)
    ensures Exchanges(s, [Decide(task), Commit(task, true)], k)
  {
    var next := Step(s, Decide(task)).0;
    assert [Decide(task), Commit(task, true)][1..] == [Commit(task, true)];
    assert Step(next, Commit(task, true)).1 == Exchanged(k, next.table.nextToken);
    assert Exchanges(next, [Commit(task, true)], k);
  }

  ghost predicate EverExchanged(s: State, k: nat) {
    exists events: seq<Event> :: Exchanges(s, events, k)
  }

  ghost predicate SomebodyCan(s: State, k: nat) {
    exists task: nat :: CanStill(s, task, k)
  }

  /** A token that was used or revoked is exchanged all the same, in some continuation, exactly
      when a refresh is still open that looked at it while it was live. */
  lemma LateExchangeIff(s: State, k: nat)
    requires Formed(s) && k in s.table.tokens && !T.IsLive(s.table.tokens[k])
    ensures EverExchanged(s, k) <==> SomebodyCan(s, k)
  {
    hide CanStill, Formed;
    if SomebodyCan(s, k) {
      var task :| CanStill(s, task, k);
      OneExchanges(s, task, k);
    } else {
      forall events: seq<Event> ensures !Exchanges(s, events, k) {
        NobodyLeft(s, events, k);
      }
    }
  }

  // ------------------------------------------------------------ one live token per family

  ghost predicate OneLive(t: T.Table) {
    forall j, k :: j in t.tokens && k in t.tokens && T.IsLive(t.tokens[j]) && T.IsLive(t.tokens[k])
                   && t.tokens[j].family == t.tokens[k].family
                   ==> j == k
  }

  /** The commit of an exchange whose token is not live any more, in a family that has a live one. */
  predicate Doubles(s: State, e: Event) {
    && e.Commit? && e.commits && e.task in s.tasks && s.tasks[e.task].Spending?
    && var token := s.tasks[e.task].token;
       && token in s.table.tokens && !T.IsLive(s.table.tokens[token])
       && exists k :: k in s.table.tokens && T.IsLive(s.table.tokens[k])
                      && s.table.tokens[k].family == s.tasks[e.task].row.family
  }

  /** Every step leaves each family at most one live token, except exactly such a commit. */
  lemma StepKeepsOneLiveIff(s: State, e: Event)
    requires Formed(s) && OneLive(s.table)
    ensures OneLive(Step(s, e).0.table) <==> !Doubles(s, e)
  {
    if e.Commit? && e.commits && e.task in s.tasks && s.tasks[e.task].Spending? {
      SpendKeepsOneLiveIff(s, e);
    } else {
      OthersKeepOneLive(s, e);
    }
  }

  lemma OthersKeepOneLive(s: State, e: Event)
    requires Formed(s) && OneLive(s.table)
    requires !(e.Commit? && e.commits && e.task in s.tasks && s.tasks[e.task].Spending?)
    ensures OneLive(Step(s, e).0.table)
  {
  }

  lemma SpendKeepsOneLiveIff(s: State, e: Event)
    requires Formed(s) && OneLive(s.table)
    requires e.Commit? && e.commits && e.task in s.tasks && s.tasks[e.task].Spending?
    ensures OneLive(Step(s, e).0.table) <==> !Doubles(s, e)
  {
    var token, row := s.tasks[e.task].token, s.tasks[e.task].row;
    var after := Step(s, e).0.table;
    assert T.IsLive(after.tokens[s.table.nextToken]) && after.tokens[s.table.nextToken].family == row.family;
    if Doubles(s, e) {
      var k :| k in s.table.tokens && T.IsLive(s.table.tokens[k]) && s.table.tokens[k].family == row.family;
      assert T.IsLive(after.tokens[k]) && k != s.table.nextToken;
    }
  }

  /** Two refreshes that look at one token before either commits are both answered, and the
      family is left with two live tokens. */
  lemma OverlapLeavesTwo(s: State, k: nat, a: nat, b: nat, now: int)
    requires Formed(s) && a != b && a !in s.tasks && b !in s.tasks && k in s.table.tokens
    requires T.IsLive(s.table.tokens[k]) && now < s.table.tokens[k].expires && s.table.tokens[k].user !in s.table.banned
    ensures var looked := Step(Step(s, Look(a, k, now)).0, Look(b, k, now)).0;
            var decided := Step(Step(looked, Decide(a)).0, Decide(b)).0;
            var (first, one) := Step(decided, Commit(a, true));
            var (second, two) := Step(first, Commit(b, true));
            && one == Exchanged(k, s.table.nextToken) && two == Exchanged(k, s.table.nextToken + 1)
            && !OneLive(second.table)
  {
    var looked := Step(Step(s, Look(a, k, now)).0, Look(b, k, now)).0;
    var decided := Step(Step(looked, Decide(a)).0, Decide(b)).0;
    assert decided.tasks[a] == Spending(k, s.table.tokens[k], now) == decided.tasks[b];
    var first := Step(decided, Commit(a, true)).0;
    var second := Step(first, Commit(b, true)).0;
    var n := s.table.nextToken;
    assert T.IsLive(second.table.tokens[n]) && T.IsLive(second.table.tokens[n + 1]);
    assert second.table.tokens[n].family == second.table.tokens[n + 1].family;
  }

  // ------------------------------------------------------------ a family that was revoked

  /** An open refresh that looked before the family died. */
  predicate Survivor(s: State, task: nat, family: nat) {
    && task in s.tasks && (s.tasks[task].Looked? || s.tasks[task].Spending?)
    && s.tasks[task].row.family == family && CanStill(s, task, s.tasks[task].token)
  }

  lemma StepAddsNoSurvivor(s: State, e: Event, family: nat, task: nat)
    requires Formed(s) && T.Dead(s.table, family)
    ensures Survivor(Step(s, e).0, task, family) ==> Survivor(s, task, family)
    ensures T.Dead(Step(s, e).0.table, family) || (e.Commit? && Survivor(s, e.task, family))
  {
  }

  lemma {:induction false} DeadForGood(s: State, events: seq<Event>, family: nat)
    requires Formed(s) && T.Dead(s.table, family) && forall task :: !Survivor(s, task, family)
    ensures T.Dead(Run(s, events).table, family)
    decreases |events|
  {
    if events != [] {
      hide Survivor, Step, Formed, T.Dead;
      var next := Step(s, events[0]).0;
      StepAges(s, events[0]);
      forall task ensures !Survivor(next, task, family) {
        StepAddsNoSurvivor(s, events[0], family, task);
      }
      StepAddsNoSurvivor(s, events[0], family, 0);
      DeadForGood(next, events[1..], family);
    }
  }

  lemma SurvivorRevives(s: State, task: nat, family: nat)
    requires Formed(s) && Survivor(s, task, family)
    ensures !T.Dead(Run(s, [Decide(task), Commit(task, true)]).table, family)
  {
    var next := Step(s, Decide(task)).0;
    var after := Step(next, Commit(task, true)).0;
    assert [Decide(task), Commit(task, true)][1..] == [Commit(task, true)] && [Commit(task, true)][1..] == [];
    assert Run(next, [Commit(task, true)]) == Run(after, []);
    assert T.IsLive(after.table.tokens[next.table.nextToken]);
    assert after.table.tokens[next.table.nextToken].family == family;
  }

  /** A family whose tokens are all used or revoked stays so over every continuation exactly
      when no refresh is open that looked at one of them while it was live. */
  lemma RevocationHoldsIff(s: State, family: nat)
    requires Formed(s) && T.Dead(s.table, family)
    ensures (forall events :: T.Dead(Run(s, events).table, family)) <==> (forall task :: !Survivor(s, task, family))
  {
    hide Survivor, Formed, T.Dead, Run;
    if task :| Survivor(s, task, family) {
      SurvivorRevives(s, task, family);
    } else {
      forall events ensures T.Dead(Run(s, events).table, family) {
        DeadForGood(s, events, family);
      }
    }
  }
}
