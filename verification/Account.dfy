/** The desktop's side of rotation: callers that need an access token, one lock, and a stored
    refresh token that is replaced before its companion is used. */
module Account {
  import opened Prelude
  import T = Tokens

  const RENEW_BEFORE := 60

  datatype Session = Session(access: nat, expires: int)

  /** A refresh answered: the access token and its companion. */
  datatype Pair = Pair(access: nat, refresh: nat, expiresIn: nat)

  /** Where one caller of `access_token` is. The lock is held from `Sending` on. */
  datatype Phase = Waiting | Sending(token: nat) | Answered(pair: Pair)
    | Turned

  datatype Desk = Desk(
    server: T.Table, stored: Option<nat>, session: Option<Session>,
    lock: Option<nat>, callers: map<nat, Phase>, ttl: nat)

  /** What a scheduler may do: a caller takes a step, or somebody else talks to the server. */
  datatype Event =
    | Call(c: nat)
    | Lock(c: nat, now: int)
    | Serve(c: nat, now: int, commits: bool, access: nat, expiresIn: nat)
    | Install(c: nat, now: int)
    | Elsewhere(e: T.Event)

  datatype Reply = Nothing | Token(access: nat) | Failed | Presented(token: nat, used: bool)

  function Leave(d: Desk, c: nat): Desk {
    d.(callers := d.callers - {c}, lock := if d.lock == Some(c) then None else d.lock)
  }

  function Step(d: Desk, e: Event): (Desk, Reply) {
    match e
    case Call(c) => if c in d.callers then (d, Nothing) else (d.(callers := d.callers[c := Waiting]), Nothing)
    case Lock(c, now) =>
      // Acquire, then either answer from memory or read the stored token. The lock stays held.
      if c !in d.callers || d.callers[c] != Waiting || d.lock.Some? then (d, Nothing)
      else if d.session.Some? && d.session.value.expires - now > RENEW_BEFORE then
        (Leave(d, c), Token(d.session.value.access))
      else if d.stored.None? then (Leave(d, c), Failed)
      else (d.(lock := Some(c), callers := d.callers[c := Sending(d.stored.value)]), Nothing)
    case Serve(c, now, commits, access, expiresIn) =>
      if c !in d.callers || !d.callers[c].Sending? then (d, Nothing)
      else
        var token := d.callers[c].token;
        var used := token in d.server.tokens && d.server.tokens[token].used.Some?;
        var a := T.Refresh(d.server, token, now, d.ttl, commits);
        var phase :=
          if a.result.Ok? && a.result.value.Some? then Answered(Pair(access, a.result.value.value, expiresIn))
          else Turned;
        (d.(server := a.table, callers := d.callers[c := phase]), Presented(token, used))
    case Install(c, now) =>
      // Written down first, then made current; a refusal leaves the stored token as it was.
      if c !in d.callers then (d, Nothing)
      else
        (match d.callers[c]
        case Answered(pair) =>
          (Leave(d.(stored := Some(pair.refresh), session := Some(Session(pair.access, now + pair.expiresIn))), c),
           Token(pair.access))
        case Turned => (Leave(d, c), Failed)
        case _ => (d, Nothing))
    case Elsewhere(o) => (d.(server := T.Step(d.server, o, d.ttl).table), Nothing)
  }

  function Run(d: Desk, events: seq<Event>): Desk
    decreases |events|
  {
    if events == [] then d else Run(Step(d, events[0]).0, events[1..])
  }

  // ------------------------------------------------------------ what every interleaving keeps

  /** The token this machine would present next: in the answer being installed if there is
      one, otherwise on the disk. */
  function Current(d: Desk): Option<nat> {
    if InFlight(d) then Some(d.callers[d.lock.value].pair.refresh) else d.stored
  }

  /** An answer has arrived and is not written down yet. */
  predicate InFlight(d: Desk) {
    d.lock.Some? && d.lock.value in d.callers && d.callers[d.lock.value].Answered?
  }

  /** Only the caller with the lock is past it, it is about to present the stored token, the
      token that would be presented next has not been used, and an answer that is not written
      down yet has used the stored one. */
  ghost predicate Serialised(d: Desk) {
    && T.Rotating(d.server)
    && (forall c :: c in d.callers && d.callers[c] != Waiting ==> d.lock == Some(c))
    && (d.lock.Some? ==> d.lock.value in d.callers && d.callers[d.lock.value] != Waiting)
    && (forall c :: c in d.callers && d.callers[c].Sending? ==> d.stored == Some(d.callers[c].token))
    && (Current(d).Some? ==>
          T.Unused(d.server, Current(d).value))
    && (InFlight(d) ==> d.stored.Some? && T.Spent(d.server, d.stored.value))
  }

  /** Nobody else holds the token this machine would present. */
  predicate Private(d: Desk, e: Event) {
    e.Elsewhere? && e.e.Present? ==> Current(d) != Some(e.e.token)
  }

  lemma StepKeeps(d: Desk, e: Event)
    requires Serialised(d) && Private(d, e)
    ensures Serialised(Step(d, e).0)
    ensures Step(d, e).1.Presented? ==> !Step(d, e).1.used
  {
    match e {
      case Serve(c, _, _, _, _) =>
        if c in d.callers && d.callers[c].Sending? {
          ServeKeeps(d, e);
        }
      case Elsewhere(_) => ElsewhereKeeps(d, e);
      case _ => hide T.Unused, T.Rotating, T.Refresh;
    }
  }

  lemma ServeKeeps(d: Desk, e: Event)
    requires Serialised(d) && e.Serve? && e.c in d.callers && d.callers[e.c].Sending?
    ensures Serialised(Step(d, e).0)
    ensures Step(d, e).1.Presented? ==> !Step(d, e).1.used
  {
    var token := d.callers[e.c].token;
    assert T.Unused(d.server, token);
    T.OnlyAnExchangeUses(d.server, T.Present(token, e.now, e.commits), d.ttl, token);
    assert T.Step(d.server, T.Present(token, e.now, e.commits), d.ttl) == T.Refresh(d.server, token, e.now, d.ttl, e.commits);
    hide T.Refresh, T.Step, T.Rotating;
  }

  lemma ElsewhereKeeps(d: Desk, e: Event)
    requires Serialised(d) && Private(d, e) && e.Elsewhere?
    ensures Serialised(Step(d, e).0) && !Step(d, e).1.Presented?
  {
    T.StepKeepsRotating(d.server, e.e, d.ttl);
    if Current(d).Some? {
      T.OnlyAnExchangeUses(d.server, e.e, d.ttl, Current(d).value);
    }
    if InFlight(d) {
      T.SpentStays(d.server, e.e, d.ttl, d.stored.value);
    }
    hide T.Step, T.Unused, T.Spent, T.Rotating;
  }

  predicate PrivateRun(d: Desk, events: seq<Event>)
    decreases |events|
  {
    events == [] || (Private(d, events[0]) && PrivateRun(Step(d, events[0]).0, events[1..]))
  }

  function Replies(d: Desk, events: seq<Event>): (replies: seq<Reply>)
    ensures |replies| == |events|
    decreases |events|
  {
    if events == [] then []
    else [Step(d, events[0]).1] + Replies(Step(d, events[0]).0, events[1..])
  }

  /** However the callers are interleaved, and whatever others do with tokens this machine has
      already given up, it never presents a used token. */
  lemma {:induction false} NeverPresentsAUsedToken(d: Desk, events: seq<Event>)
    requires Serialised(d) && PrivateRun(d, events)
    ensures Serialised(Run(d, events))
    ensures forall i :: 0 <= i < |Replies(d, events)| && Replies(d, events)[i].Presented? ==>
              !Replies(d, events)[i].used
    decreases |events|
  {
    if events != [] {
      StepKeeps(d, events[0]);
      NeverPresentsAUsedToken(Step(d, events[0]).0, events[1..]);
    }
  }

  /** A caller is answered from memory exactly when the session there has more than a minute
      left; otherwise it goes to the server with the stored token, or fails without one. */
  lemma MemoryAnswersIff(d: Desk, c: nat, now: int)
    requires d.lock.None? && c in d.callers && d.callers[c] == Waiting
    ensures var (after, reply) := Step(d, Lock(c, now));
            && (reply.Token? <==> d.session.Some? && d.session.value.expires > now + 60)
            && (reply.Token? ==> reply.access == d.session.value.access)
            && (reply == Failed <==> !reply.Token? && d.stored.None?)
            && (!reply.Token? && d.stored.Some? ==> after.lock == Some(c) && after.callers[c] == Sending(d.stored.value))
  {
  }

  /** So the server never has a reuse to answer. */
  lemma NeverAccused(d: Desk, events: seq<Event>, c: nat, now: int, commits: bool)
    requires Serialised(d) && PrivateRun(d, events)
    requires var after := Run(d, events); c in after.callers && after.callers[c].Sending?
    ensures var after := Run(d, events);
            T.Refresh(after.server, after.callers[c].token, now, d.ttl, commits).result != Err(T.Reused)
  {
    NeverPresentsAUsedToken(d, events);
  }

  /** Two callers who find the same expired session spend one refresh token between them: the
      second is answered from memory. */
  lemma OneRenewalServesBoth(d: Desk, a: nat, b: nat, now: int, access: nat, expiresIn: nat)
    requires Serialised(d) && d.lock.None? && a != b && a !in d.callers && b !in d.callers
    requires d.session.None? && d.stored.Some? && expiresIn > RENEW_BEFORE
    requires var t := d.server.tokens[d.stored.value];
             T.IsLive(t) && now < t.expires && t.user !in d.server.banned
    ensures var d1 := Run(d, [Call(a), Call(b), Lock(a, now)]);
            && Step(d1, Lock(b, now)) == (d1, Nothing)
            && var d2 := Run(d1, [Serve(a, now, true, access, expiresIn), Install(a, now)]);
               Step(d2, Lock(b, now)).1 == Token(access)
  {
    var e1 := Step(d, Call(a)).0;
    var e2 := Step(e1, Call(b)).0;
    var d1 := Step(e2, Lock(a, now)).0;
    ThreeSteps(d, Call(a), Call(b), Lock(a, now));
    assert d1.callers[a] == Sending(d.stored.value) && d1.callers[b] == Waiting;
    var e3 := Step(d1, Serve(a, now, true, access, expiresIn)).0;
    assert e3.callers[a].Answered? && e3.callers[a].pair.access == access;
    TwoSteps(d1, Serve(a, now, true, access, expiresIn), Install(a, now));
  }

  lemma TwoSteps(d: Desk, x: Event, y: Event)
    ensures Run(d, [x, y]) == Step(Step(d, x).0, y).0
  {
    assert [x, y][1..] == [y] && [y][1..] == [];
    assert Run(Step(d, x).0, [y]) == Run(Step(Step(d, x).0, y).0, []);
  }

  lemma ThreeSteps(d: Desk, x: Event, y: Event, z: Event)
    ensures Run(d, [x, y, z]) == Step(Step(Step(d, x).0, y).0, z).0
  {
    assert [x, y, z][1..] == [y, z];
    TwoSteps(Step(d, x).0, y, z);
  }

  /** Somebody who signs out elsewhere with any token of this login ends it here too: the next
      renewal with the stored token is turned away. */
  lemma SignedOutElsewhere(d: Desk, k: nat, c: nat, when: int, now: int, access: nat, expiresIn: nat)
    requires Serialised(d) && c in d.callers && d.callers[c].Sending? && k in d.server.tokens
    requires d.server.tokens[k].family == d.server.tokens[d.callers[c].token].family
    ensures var after := Step(d, Elsewhere(T.Leaves(k, when))).0;
            Step(after, Serve(c, now, true, access, expiresIn)).0.callers[c] == Turned
  {
  }

  // ------------------------------------------------------------ where the guarantee stops

  /** `restore` reads the stored token before it takes the lock. Alone it is a renewal. */
  function RestoreAfter(d: Desk, read: nat, now: int): T.Answer {
    T.Refresh(d.server, read, now, d.ttl, true)
  }

  /** This step is a caller's renewal with token `k`, answered by the server. */
  predicate Renews(d: Desk, e: Event, k: nat) {
    && e.Serve? && e.c in d.callers && d.callers[e.c] == Sending(k)
    && T.Refresh(d.server, k, e.now, d.ttl, e.commits).result.Ok?
  }

  predicate RenewedWith(d: Desk, events: seq<Event>, k: nat)
    decreases |events|
  {
    events != [] && (Renews(d, events[0], k) || RenewedWith(Step(d, events[0]).0, events[1..], k))
  }

  /** A restore is answered with a reuse exactly when the renewal that spends the token it read
      was answered before it read it and is not written down yet, or is answered between its
      read and its request. */
  lemma RestoreMustBeAlone(d: Desk, events: seq<Event>, now: int)
    requires Serialised(d) && PrivateRun(d, events) && d.stored.Some?
    ensures RestoreAfter(Run(d, events), d.stored.value, now).result == Err(T.Reused)
            <==> InFlight(d) || RenewedWith(d, events, d.stored.value)
  {
    var k := d.stored.value;
    if InFlight(d) {
      SpentForGood(d, events, k);
    } else {
      SpentIffRenewed(d, events, k);
    }
    NeverPresentsAUsedToken(d, events);
    hide Serialised, PrivateRun, RenewedWith, T.RevokeFamily;
  }

  /** While the disk holds `k` and no answer is in flight, only a renewal with it spends it. */
  lemma {:induction false} SpentIffRenewed(d: Desk, events: seq<Event>, k: nat)
    requires Serialised(d) && PrivateRun(d, events) && d.stored == Some(k) && !InFlight(d)
    ensures var after := Run(d, events).server;
            && k in after.tokens
            && (T.Spent(after, k) <==> RenewedWith(d, events, k))
    decreases |events|
  {
    if events != [] {
      var next := Step(d, events[0]).0;
      StepKeeps(d, events[0]);
      RenewalSpends(d, events[0], k);
      hide T.Unused, T.Spent, T.Rotating, T.Refresh, Step;
      if Renews(d, events[0], k) {
        SpentForGood(next, events[1..], k);
      } else {
        SpentIffRenewed(next, events[1..], k);
      }
    }
  }

  lemma RenewalSpends(d: Desk, e: Event, k: nat)
    requires Serialised(d) && Private(d, e) && d.stored == Some(k) && !InFlight(d)
    ensures var next := Step(d, e).0;
            if Renews(d, e, k) then T.Spent(next.server, k)
            else next.stored == Some(k) && !InFlight(next)
  {
    hide T.RevokeFamily;
  }

  lemma {:induction false} SpentForGood(d: Desk, events: seq<Event>, k: nat)
    requires T.Rotating(d.server) && T.Spent(d.server, k)
    ensures T.Spent(Run(d, events).server, k)
    decreases |events|
  {
    if events != [] {
      match events[0] {
        case Serve(c, now, commits, _, _) =>
          if c in d.callers && d.callers[c].Sending? {
            T.SpentStays(d.server, T.Present(d.callers[c].token, now, commits), d.ttl, k);
          }
        case Elsewhere(o) => T.SpentStays(d.server, o, d.ttl, k);
        case _ =>
      }
      SpentForGood(Step(d, events[0]).0, events[1..], k);
    }
  }

  /** The renewal was answered and the process died before writing the answer down: the token
      on the disk is spent, and presenting it ends the family. */
  lemma UnwrittenAnswerEndsTheFamily(d: Desk, c: nat, now: int, access: nat, expiresIn: nat, later: int)
    requires Serialised(d) && c in d.callers && d.callers[c].Sending?
    ensures var served := Step(d, Serve(c, now, true, access, expiresIn)).0;
            var again := T.Refresh(served.server, d.stored.value, later, d.ttl, true);
            served.callers[c].Answered? <==> again.result == Err(T.Reused)
  {
  }

  // ------------------------------------------------------------ one call, as it runs

  /** The machine's own state. The lock is held for the length of a method. */
  class Machine {
    var stored: Option<nat>
    var session: Option<Session>

    constructor (stored: Option<nat>)
      ensures this.stored == stored && session.None?
    {
      this.stored, session := stored, None;
    }

    /** Both halves of a pair take effect, or neither: the disk is written before memory is. */
    method InstallPair(pair: Pair, now: int, keeps: bool) returns (r: Option<nat>)
      modifies this
      ensures keeps ==> r == Some(pair.access) && stored == Some(pair.refresh)
                        && session == Some(Session(pair.access, now + pair.expiresIn))
      ensures !keeps ==> r.None? && stored == old(stored) && session == old(session)
    {
      if !keeps {
        return None;
      }
      stored := Some(pair.refresh);
      session := Some(Session(pair.access, now + pair.expiresIn));
      r := Some(pair.access);
    }

    /** Four steps of the scheduler above, taken by one caller alone. `access` and `expiresIn`
        are what the server would mint, `keeps` whether the disk takes the new pair. */
    method AccessToken(server: T.TokenStore, now: int, ttl: nat, commits: bool, access: nat, expiresIn: nat, keeps: bool)
      returns (r: Option<nat>)
      modifies this, server
      ensures var before := Desk(old(server.View()), old(stored), old(session), None, map[], ttl);
              var (called, _) := Step(before, Call(0));
              var (locked, atOnce) := Step(called, Lock(0, now));
              var (served, _) := Step(locked, Serve(0, now, commits, access, expiresIn));
              var (after, late) := Step(served, Install(0, now));
              && server.View() == after.server
              && (keeps || !late.Token? ==>
                    && stored == after.stored && session == after.session
                    && r == (if atOnce.Token? then Some(atOnce.access)
                             else if late.Token? then Some(late.access) else None))
              && (!keeps && late.Token? ==> r.None? && stored == old(stored) && session == old(session))
    {
      if session.Some? && session.value.expires - now > RENEW_BEFORE {
        return Some(session.value.access);
      }
      if stored.None? {
        return None;
      }
      var answer := server.Rotate(stored.value, now, ttl, commits);
      if answer.Err? || answer.value.None? {
        return None;
      }
      r := InstallPair(Pair(access, answer.value.value, expiresIn), now, keeps);
    }
  }
}
