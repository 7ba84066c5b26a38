/** Refresh-token rotation on the server, one request at a time: one live token per login, and a
    family that dies for good the moment a token is presented twice. `Rotation` overlaps them. */
module Tokens {
  import opened Prelude

  datatype Token = Token(user: nat, family: nat, used: Option<int>, revoked: Option<int>, expires: int)

  /** The tokens by what their holder presents, the members whose access was taken away, and
      the next unused identifiers. */
  datatype Table = Table(tokens: map<nat, Token>, banned: set<nat>, nextToken: nat, nextFamily: nat)

  datatype AuthError = Invalid | Reused | Expired | AccountRevoked | Uncommitted

  /** What a request answers: a fresh token where one is issued. */
  datatype Answer = Answer(table: Table, result: Result<Option<nat>, AuthError>)

  predicate IsLive(t: Token) {
    t.used.None? && t.revoked.None?
  }

  // ------------------------------------------------------------ the operations

  function Issue(t: Table, user: nat, family: nat, now: int, ttl: nat): Table {
    t.(tokens := t.tokens[t.nextToken := Token(user, family, None, None, now + ttl)],
       nextToken := t.nextToken + 1)
  }

  /** The table with the family's unrevoked tokens revoked at `now`. */
  function RevokeFamily(t: Table, family: nat, now: int): Table {
    t.(tokens := map k | k in t.tokens ::
        if t.tokens[k].family == family && t.tokens[k].revoked.None?
        then t.tokens[k].(revoked := Some(now)) else t.tokens[k])
  }

  function SignIn(t: Table, user: nat, now: int, ttl: nat): Table {
    Issue(t.(nextFamily := t.nextFamily + 1), user, t.nextFamily, now, ttl)
  }

  /** The order of the checks matters: reuse is answered before anything else. The two
      revocations are committed before the request fails. */
  function Refresh(t: Table, presented: nat, now: int, ttl: nat, commits: bool): Answer {
    if presented !in t.tokens then Answer(t, Err(Invalid))
    else
      var stored := t.tokens[presented];
      if stored.used.Some? then
        if commits then Answer(RevokeFamily(t, stored.family, now), Err(Reused)) else Answer(t, Err(Uncommitted))
      else if stored.revoked.Some? then Answer(t, Err(Invalid))
      else if stored.expires <= now then Answer(t, Err(Expired))
      else if stored.user in t.banned then
        if commits then Answer(RevokeFamily(t, stored.family, now), Err(AccountRevoked)) else Answer(t, Err(Uncommitted))
      else if !commits then Answer(t, Err(Uncommitted))
      else
        var spent := t.(tokens := t.tokens[presented := stored.(used := Some(now))]);
        Answer(Issue(spent, stored.user, stored.family, now, ttl), Ok(Some(t.nextToken)))
  }

  function SignOut(t: Table, presented: nat, now: int): Table {
    if presented !in t.tokens then t else RevokeFamily(t, t.tokens[presented].family, now)
  }

  // ------------------------------------------------------------ the same, step by step

  class TokenStore {
    var tokens: map<nat, Token>
    var banned: set<nat>
    var nextToken: nat
    var nextFamily: nat

    function View(): Table
      reads this
    {
      Table(tokens, banned, nextToken, nextFamily)
    }

    constructor ()
      ensures View() == Table(map[], {}, 0, 0)
    {
      tokens, banned, nextToken, nextFamily := map[], {}, 0, 0;
    }

    method IssueToken(user: nat, family: nat, now: int, ttl: nat) returns (raw: nat)
      modifies this`tokens, this`nextToken
      ensures raw == old(nextToken) && View() == Issue(old(View()), user, family, now, ttl)
    {
      raw := nextToken;
      tokens := tokens[raw := Token(user, family, None, None, now + ttl)];
      nextToken := nextToken + 1;
    }

    /** One row after the other, in whatever order the database answers. */
    method RevokeAll(family: nat, now: int)
      modifies this`tokens
      ensures View() == RevokeFamily(old(View()), family, now)
    {
      ghost var after := RevokeFamily(View(), family, now).tokens;
      var todo := set k | k in tokens && tokens[k].family == family && tokens[k].revoked.None?;
      while todo != {}
        invariant tokens.Keys == old(tokens).Keys && todo <= tokens.Keys
        invariant forall k :: k in todo ==> tokens[k] == old(tokens[k]) && tokens[k].family == family && tokens[k].revoked.None?
        invariant forall k :: k in tokens && k !in todo ==> tokens[k] == after[k]
        decreases |todo|
      {
        var k :| k in todo;
        tokens := tokens[k := tokens[k].(revoked := Some(now))];
        todo := todo - {k};
      }
      assert tokens == after;
    }

    method Rotate(presented: nat, now: int, ttl: nat, commits: bool) returns (r: Result<Option<nat>, AuthError>)
      modifies this`tokens, this`nextToken
      ensures Answer(View(), r) == Refresh(old(View()), presented, now, ttl, commits)
    {
      if presented !in tokens {
        return Err(Invalid);
      }
      var stored := tokens[presented];
      if stored.used.Some? {
        if !commits {
          return Err(Uncommitted);
        }
        RevokeAll(stored.family, now);
        return Err(Reused);
      }
      if stored.revoked.Some? {
        return Err(Invalid);
      }
      if stored.expires <= now {
        return Err(Expired);
      }
      if stored.user in banned {
        if !commits {
          return Err(Uncommitted);
        }
        RevokeAll(stored.family, now);
        return Err(AccountRevoked);
      }
      if !commits {
        return Err(Uncommitted);
      }
      tokens := tokens[presented := stored.(used := Some(now))];
      var issued := IssueToken(stored.user, stored.family, now, ttl);
      r := Ok(Some(issued));
    }

    method Leave(presented: nat, now: int)
      modifies this`tokens
      ensures View() == SignOut(old(View()), presented, now)
    {
      if presented in tokens {
        RevokeAll(tokens[presented].family, now);
      }
    }
  }

  // ------------------------------------------------------------ runs

  datatype Event =
    | Enter(user: nat, now: int)
    | Present(token: nat, now: int, commits: bool)
    | Leaves(token: nat, now: int)
    | Ban(user: nat)

  function Step(t: Table, e: Event, ttl: nat): Answer {
    match e
    case Enter(user, now) => Answer(SignIn(t, user, now, ttl), Ok(Some(t.nextToken)))
    case Present(token, now, commits) => Refresh(t, token, now, ttl, commits)
    case Leaves(token, now) => Answer(SignOut(t, token, now), Ok(None))
    case Ban(user) => Answer(t.(banned := t.banned + {user}), Ok(None))
  }

  function Run(t: Table, events: seq<Event>, ttl: nat): Table
    decreases |events|
  {
    if events == [] then t else Run(Step(t, events[0], ttl).table, events[1..], ttl)
  }

  /** At most one token of a family is neither used nor revoked. */
  ghost predicate Rotating(t: Table) {
    && (forall k :: k in t.tokens ==> k < t.nextToken && t.tokens[k].family < t.nextFamily)
    && (forall j, k ::
          j in t.tokens && k in t.tokens && IsLive(t.tokens[j]) && IsLive(t.tokens[k])
          && t.tokens[j].family == t.tokens[k].family
          ==> j == k)
  }

  lemma StepKeepsRotating(t: Table, e: Event, ttl: nat)
    requires Rotating(t)
    ensures Rotating(Step(t, e, ttl).table)
  {
  }

  /** One live token per family, whatever is presented, however often, in whatever order. */
  lemma {:induction false} OneLiveTokenPerFamily(t: Table, events: seq<Event>, ttl: nat)
    requires Rotating(t)
    ensures Rotating(Run(t, events, ttl))
    decreases |events|
  {
    if events != [] {
      StepKeepsRotating(t, events[0], ttl);
      OneLiveTokenPerFamily(Step(t, events[0], ttl).table, events[1..], ttl);
    }
  }

  /** No token of the family can be exchanged any more. */
  ghost predicate Dead(t: Table, family: nat) {
    && family < t.nextFamily
    && forall k :: k in t.tokens && t.tokens[k].family == family ==> !IsLive(t.tokens[k])
  }

  /** A dead family yields nothing, and stays dead. */
  lemma DeadStaysDead(t: Table, e: Event, ttl: nat, family: nat)
    requires Rotating(t) && Dead(t, family)
    ensures var a := Step(t, e, ttl);
            && Dead(a.table, family)
            && (a.result.Ok? && a.result.value.Some? ==>
                  a.result.value.value in a.table.tokens
                  && a.table.tokens[a.result.value.value].family != family)
  {
  }

  function Issued(t: Table, events: seq<Event>, ttl: nat): seq<nat>
    decreases |events|
  {
    if events == [] then []
    else
      var a := Step(t, events[0], ttl);
      (if a.result.Ok? && a.result.value.Some? then [a.result.value.value] else [])
      + Issued(a.table, events[1..], ttl)
  }

  /** A token's family never changes and a token is never deleted. */
  lemma {:induction false} TokensStay(t: Table, events: seq<Event>, ttl: nat, k: nat)
    requires Rotating(t) && k in t.tokens
    ensures var after := Run(t, events, ttl);
            k in after.tokens && after.tokens[k].family == t.tokens[k].family
            && (t.tokens[k].used.Some? ==> after.tokens[k].used.Some?)
            && (t.tokens[k].revoked.Some? ==> after.tokens[k].revoked.Some?)
    decreases |events|
  {
    if events != [] {
      hide Step, Rotating;
      StepKeepsRotating(t, events[0], ttl);
      OnlyItsFamily(t, events[0], ttl, k);
      TokensStay(Step(t, events[0], ttl).table, events[1..], ttl, k);
    }
  }

  lemma {:induction false} DeadForever(t: Table, events: seq<Event>, ttl: nat, family: nat)
    requires Rotating(t) && Dead(t, family)
    ensures Dead(Run(t, events, ttl), family)
    ensures forall i :: 0 <= i < |Issued(t, events, ttl)| ==>
              var k := Issued(t, events, ttl)[i];
              k in Run(t, events, ttl).tokens && Run(t, events, ttl).tokens[k].family != family
    decreases |events|
  {
    if events != [] {
      var a := Step(t, events[0], ttl);
      StepKeepsRotating(t, events[0], ttl);
      DeadStaysDead(t, events[0], ttl, family);
      DeadForever(a.table, events[1..], ttl, family);
      if a.result.Ok? && a.result.value.Some? {
        TokensStay(a.table, events[1..], ttl, a.result.value.value);
      }
    }
  }

  /** Once a reuse has been answered, or a banned member turned away, or a member signed out,
      nothing that happens afterwards gets another token out of that family: the revocation
      outlives the request that failed. */
  lemma ReuseEndsTheFamily(t: Table, e: Event, events: seq<Event>, ttl: nat)
    requires Rotating(t) && (e.Present? || e.Leaves?) && e.token in t.tokens
    requires var a := Step(t, e, ttl);
             e.Leaves? || a.result == Err(Reused) || a.result == Err(AccountRevoked)
    ensures var a := Step(t, e, ttl);
            var family := t.tokens[e.token].family;
            && Dead(Run(a.table, events, ttl), family)
            && forall i :: 0 <= i < |Issued(a.table, events, ttl)| ==>
                 var k := Issued(a.table, events, ttl)[i];
                 k in Run(a.table, events, ttl).tokens && Run(a.table, events, ttl).tokens[k].family != family
  {
    StepKeepsRotating(t, e, ttl);
    var family := t.tokens[e.token].family;
    assert Dead(Step(t, e, ttl).table, family);
    DeadForever(Step(t, e, ttl).table, events, ttl, family);
  }

  /** Every token that appears in the course of a run was answered to somebody. */
  lemma {:induction false} NewTokensWereIssued(t: Table, events: seq<Event>, ttl: nat, k: nat)
    requires Rotating(t) && k !in t.tokens && k in Run(t, events, ttl).tokens
    ensures k in Issued(t, events, ttl)
    decreases |events|
  {
    if events != [] {
      var a := Step(t, events[0], ttl);
      StepKeepsRotating(t, events[0], ttl);
      if k in a.table.tokens {
        OnlyAnswersAdd(t, events[0], ttl, k);
      } else {
        NewTokensWereIssued(a.table, events[1..], ttl, k);
      }
    }
  }

  /** The family a request is about, if it names a token there is. */
  function FamilyOf(t: Table, e: Event): Option<nat> {
    if (e.Present? || e.Leaves?) && e.token in t.tokens then Some(t.tokens[e.token].family) else None
  }

  /** A request leaves the tokens of every other family as they were, and of its own changes
      nothing but when each was used and revoked, once; a sign-out revokes them all. */
  lemma OnlyItsFamily(t: Table, e: Event, ttl: nat, k: nat)
    requires Rotating(t) && k in t.tokens
    ensures var after := Step(t, e, ttl).table.tokens;
            && k in after
            && (FamilyOf(t, e) != Some(t.tokens[k].family) ==> after[k] == t.tokens[k])
            && after[k] == t.tokens[k].(used := after[k].used, revoked := after[k].revoked)
            && (t.tokens[k].used.Some? ==> after[k].used == t.tokens[k].used)
            && (t.tokens[k].revoked.Some? ==> after[k].revoked == t.tokens[k].revoked)
            && (after[k].used != t.tokens[k].used ==> e.Present? && e.token == k)
            && (e.Leaves? && FamilyOf(t, e) == Some(t.tokens[k].family) ==> after[k].revoked.Some?)
  {
  }

  lemma OnlyAnswersAdd(t: Table, e: Event, ttl: nat, k: nat)
    requires k !in t.tokens && k in Step(t, e, ttl).table.tokens
    ensures Step(t, e, ttl).result == Ok(Some(k))
  {
  }

  /** A member whose access was taken away never exchanges a token again, whatever else
      happens, and the first attempt with one that is unused, unrevoked and unexpired ends
      the family. */
  lemma BannedGetsNothing(t: Table, events: seq<Event>, ttl: nat, k: nat, now: int)
    requires Rotating(t) && k in t.tokens
    ensures var after := Run(Step(t, Ban(t.tokens[k].user), ttl).table, events, ttl);
            var a := Refresh(after, k, now, ttl, true);
            && k in after.tokens && a.result.Err?
            && (IsLive(after.tokens[k]) && now < after.tokens[k].expires ==>
                  a.result == Err(AccountRevoked) && Dead(a.table, t.tokens[k].family))
  {
    var banned := Step(t, Ban(t.tokens[k].user), ttl).table;
    StepKeepsRotating(t, Ban(t.tokens[k].user), ttl);
    BansStay(banned, events, ttl, k);
    OneLiveTokenPerFamily(banned, events, ttl);
    TokensStay(banned, events, ttl, k);
  }

  lemma {:induction false} BansStay(t: Table, events: seq<Event>, ttl: nat, k: nat)
    requires Rotating(t) && k in t.tokens
    ensures var after := Run(t, events, ttl);
            t.banned <= after.banned && k in after.tokens && after.tokens[k].user == t.tokens[k].user
    decreases |events|
  {
    if events != [] {
      StepKeepsRotating(t, events[0], ttl);
      BansStay(Step(t, events[0], ttl).table, events[1..], ttl, k);
    }
  }

  predicate Unused(t: Table, k: nat) {
    k in t.tokens && t.tokens[k].used.None?
  }

  predicate Spent(t: Table, k: nat) {
    k in t.tokens && t.tokens[k].used.Some?
  }

  lemma SpentStays(t: Table, e: Event, ttl: nat, k: nat)
    requires Rotating(t) && Spent(t, k)
    ensures Rotating(Step(t, e, ttl).table) && Spent(Step(t, e, ttl).table, k)
  {
    StepKeepsRotating(t, e, ttl);
  }

  /** A token is marked used by nobody but its holder, and only when it is exchanged. */
  lemma OnlyAnExchangeUses(t: Table, e: Event, ttl: nat, k: nat)
    requires Rotating(t) && Unused(t, k)
    ensures var a := Step(t, e, ttl);
            && Rotating(a.table)
            && (Unused(a.table, k) <==> !(e.Present? && e.token == k && a.result.Ok?))
            && (e.Present? && a.result.Ok? ==> a.result.value.Some? && Unused(a.table, a.result.value.value))
  {
    StepKeepsRotating(t, e, ttl);
  }

  /** A token buys exactly one replacement: it is exchanged exactly when it is live, unexpired
      and its member still belongs, and then it never is again. */
  lemma ExchangedOnce(t: Table, token: nat, now: int, events: seq<Event>, again: int, commits: bool, ttl: nat)
    requires Rotating(t)
    ensures var a := Refresh(t, token, now, ttl, true);
            a.result.Ok? <==> token in t.tokens && IsLive(t.tokens[token]) && now < t.tokens[token].expires
                              && t.tokens[token].user !in t.banned
    ensures var a := Refresh(t, token, now, ttl, true);
            a.result.Ok? ==>
              && a.table.tokens[a.result.value.value] == Token(t.tokens[token].user, t.tokens[token].family, None, None, now + ttl)
              && Refresh(Run(a.table, events, ttl), token, again, ttl, commits).result.Err?
              && Refresh(Run(a.table, events, ttl), token, again, ttl, true).result == Err(Reused)
  {
    var a := Refresh(t, token, now, ttl, true);
    if a.result.Ok? {
      StepKeepsRotating(t, Present(token, now, true), ttl);
      TokensStay(a.table, events, ttl, token);
    }
  }
}
