/** The supplier chain: a circuit breaker per supplier, and a router that tries the suppliers
    in order and says when somebody else had to answer. */
module Router {
  import opened Prelude

  const FAILURE_THRESHOLD := 5
  const FAILURE_WINDOW: real := 600.0
  const HALF_OPEN_AFTER: real := 120.0

  // ------------------------------------------------------------ the breaker, as a value

  datatype Circuit = Circuit(failures: seq<real>, openedAt: Option<real>)

  const CLOSED := Circuit([], None)

  function ForgetOld(failures: seq<real>, now: real): seq<real> {
    if failures != [] && now - failures[0] > FAILURE_WINDOW then ForgetOld(failures[1..], now) else failures
  }

  function Failed(c: Circuit, now: real): Circuit {
    var failures := ForgetOld(c.failures + [now], now);
    Circuit(failures, if |failures| >= FAILURE_THRESHOLD then Some(now) else c.openedAt)
  }

  /** Whether to skip the supplier. Asking after long enough half-opens the circuit. */
  function Ask(c: Circuit, now: real): (Circuit, bool) {
    if c.openedAt.None? then (c, false)
    else if now - c.openedAt.value >= HALF_OPEN_AFTER then (CLOSED, false)
    else (c, true)
  }

  class Breaker {
    var failures: seq<real>
    var openedAt: Option<real>

    function View(): Circuit
      reads this
    {
      Circuit(failures, openedAt)
    }

    constructor ()
      ensures View() == CLOSED
    {
      failures, openedAt := [], None;
    }

    method RecordFailure(now: real)
      modifies this
      ensures View() == Failed(old(View()), now)
    {
      failures := failures + [now];
      while |failures| > 0 && now - failures[0] > FAILURE_WINDOW
        invariant openedAt == old(openedAt)
        invariant ForgetOld(failures, now) == ForgetOld(old(failures) + [now], now)
        decreases |failures|
      {
        failures := failures[1..];
      }
      if |failures| >= FAILURE_THRESHOLD {
        openedAt := Some(now);
      }
    }

    method RecordSuccess()
      modifies this
      ensures View() == CLOSED
    {
      failures, openedAt := [], None;
    }

    method IsOpen(now: real) returns (open: bool)
      modifies this
      ensures (View(), open) == Ask(old(View()), now)
    {
      if openedAt.None? {
        return false;
      }
      if now - openedAt.value >= HALF_OPEN_AFTER {
        openedAt := None;
        failures := [];
        return false;
      }
      open := true;
    }
  }

  // ------------------------------------------------------------ the router, as a function

  /** What a supplier answers to one request. */
  datatype Reply = Transcribes | FailsForNow | RefusesRequest

  /** A supplier's turn: when the router reaches it, and what and when it would answer. */
  datatype Turn = Turn(asked: real, reply: Reply, answered: real)

  datatype Outcome = Answered(supplier: nat, fallback: bool) | Raised(supplier: nat) | AllFailed

  type Circuits = map<string, Circuit>

  /** From supplier `i` on. Each is asked at most once; a request that is wrong stops here. */
  function Transcribe(circuits: Circuits, names: seq<string>, turns: seq<Turn>, i: nat, rescued: bool): (Circuits, Outcome)
    requires i <= |names| == |turns|
    requires forall n :: n in names ==> n in circuits
    decreases |names| - i
  {
    if i == |names| then (circuits, AllFailed)
    else
      var (circuit, open) := Ask(circuits[names[i]], turns[i].asked);
      var asked := circuits[names[i] := circuit];
      if open then Transcribe(asked, names, turns, i + 1, rescued)
      else
        match turns[i].reply
        case Transcribes => (asked[names[i] := CLOSED], Answered(i, i > 0 || rescued))
        case RefusesRequest => (asked, Raised(i))
        case FailsForNow =>
          Transcribe(asked[names[i] := Failed(circuit, turns[i].answered)], names, turns, i + 1, true)
  }

  class TranscriptionRouter {
    const names: seq<string>
    const breakers: map<string, Breaker>

    ghost predicate Valid()
      reads this
    {
      && names != [] && (forall n :: n in names ==> n in breakers)
      && (forall m, n :: m in breakers && n in breakers && m != n ==> breakers[m] != breakers[n])
    }

    ghost function View(): Circuits
      reads this, breakers.Values
    {
      map n | n in breakers :: breakers[n].View()
    }

    method TranscribeAudio(turns: seq<Turn>) returns (outcome: Outcome)
      requires Valid() && |turns| == |names|
      modifies breakers.Values
      ensures (View(), outcome) == Transcribe(old(View()), names, turns, 0, false)
    {
      var usedFallback := false;
      var index := 0;
      while index < |names|
        invariant 0 <= index <= |names| && Valid()
        invariant Transcribe(View(), names, turns, index, usedFallback) == Transcribe(old(View()), names, turns, 0, false)
      {
        ghost var before := View();
        var breaker := breakers[names[index]];
        var open := breaker.IsOpen(turns[index].asked);
        ghost var asked := View();
        assert asked == before[names[index] := breaker.View()];
        if !open {
          match turns[index].reply {
            case Transcribes =>
              breaker.RecordSuccess();
              assert View() == asked[names[index] := CLOSED];
              return Answered(index, index > 0 || usedFallback);
            case RefusesRequest =>
              return Raised(index);
            case FailsForNow =>
              breaker.RecordFailure(turns[index].answered);
              assert View() == asked[names[index] := breaker.View()];
              usedFallback := true;
          }
        }
        index := index + 1;
      }
      outcome := AllFailed;
    }
  }

  // ------------------------------------------------------------ the flag

  /** The flag is set exactly when the answering supplier is not the first configured. */
  lemma {:induction false} FallbackIffNotFirst(circuits: Circuits, names: seq<string>, turns: seq<Turn>, i: nat, rescued: bool)
    requires i <= |names| == |turns| && (rescued ==> i > 0)
    requires forall n :: n in names ==> n in circuits
    ensures var outcome := Transcribe(circuits, names, turns, i, rescued).1;
            outcome.Answered? ==> (outcome.fallback <==> outcome.supplier != 0) && i <= outcome.supplier < |names|
    decreases |names| - i
  {
    if i < |names| {
      var (circuit, open) := Ask(circuits[names[i]], turns[i].asked);
      var asked := circuits[names[i] := circuit];
      if open {
        FallbackIffNotFirst(asked, names, turns, i + 1, rescued);
      } else if turns[i].reply.FailsForNow? {
        FallbackIffNotFirst(asked[names[i] := Failed(circuit, turns[i].answered)], names, turns, i + 1, true);
      }
    }
  }

  /** A supplier that will not answer: its circuit is open, or it fails for now. */
  predicate Down(circuits: Circuits, names: seq<string>, turns: seq<Turn>, j: nat)
    requires j < |names| == |turns| && names[j] in circuits
  {
    Ask(circuits[names[j]], turns[j].asked).1 || turns[j].reply.FailsForNow?
  }

  predicate Different(names: seq<string>) {
    forall i, j :: 0 <= i < j < |names| ==> names[i] != names[j]
  }

  /** The first supplier in the configured order that is not down settles the request: its
      answer is the answer, its refusal ends the chain, and only if there is none does every
      supplier count as failed. */
  lemma {:induction false} FirstUpSettles(circuits: Circuits, names: seq<string>, turns: seq<Turn>, i: nat, rescued: bool)
    requires i <= |names| == |turns| && Different(names)
    requires forall n :: n in names ==> n in circuits
    ensures var outcome := Transcribe(circuits, names, turns, i, rescued).1;
            && (outcome.AllFailed? <==> forall j :: i <= j < |names| ==> Down(circuits, names, turns, j))
            && (!outcome.AllFailed? ==>
                  && i <= outcome.supplier < |names|
                  && !Down(circuits, names, turns, outcome.supplier)
                  && (forall j :: i <= j < outcome.supplier ==> Down(circuits, names, turns, j))
                  && (outcome.Answered? <==> turns[outcome.supplier].reply.Transcribes?))
    decreases |names| - i
  {
    if i < |names| && Down(circuits, names, turns, i) {
      var (circuit, open) := Ask(circuits[names[i]], turns[i].asked);
      var asked := circuits[names[i] := circuit];
      var next := if open then asked else asked[names[i] := Failed(circuit, turns[i].answered)];
      hide Failed, Ask;
      FirstUpSettles(next, names, turns, i + 1, rescued || !open);
      forall j | i < j < |names| ensures Down(next, names, turns, j) == Down(circuits, names, turns, j) {
        assert names[j] != names[i];
      }
    }
  }

  // ------------------------------------------------------------ why a supplier is skipped

  /** What happened to one supplier's circuit. */
  datatype Note = Failure(at: real) | Success(at: real) | HalfOpen(at: real)

  /** A circuit with everything that ever happened to it. */
  datatype History = History(circuit: Circuit, notes: seq<Note>)

  datatype Event = Asked(at: real) | Fails(at: real) | Succeeds(at: real)

  function Happen(h: History, e: Event): History {
    match e
    case Asked(at) =>
      var (circuit, open) := Ask(h.circuit, at);
      History(circuit, if h.circuit.openedAt.Some? && !open then h.notes + [HalfOpen(at)] else h.notes)
    case Fails(at) => History(Failed(h.circuit, at), h.notes + [Failure(at)])
    case Succeeds(at) => History(CLOSED, h.notes + [Success(at)])
  }

  function Live(events: seq<Event>): History {
    if events == [] then History(CLOSED, []) else Happen(Live(events[..|events| - 1]), events[|events| - 1])
  }

  predicate Ascend(f: seq<real>) {
    forall i, j :: 0 <= i < j < |f| ==> f[i] <= f[j]
  }

  /** These failures are the last things that happened. */
  predicate EndsWith(notes: seq<Note>, f: seq<real>) {
    && |f| <= |notes|
    && forall i :: 0 <= i < |f| ==> notes[|notes| - |f| + i] == Failure(f[i])
  }

  /** A failure just before them is out of the window. */
  predicate Complete(notes: seq<Note>, f: seq<real>)
    requires |f| <= |notes|
  {
    var n := |notes| - |f|;
    n > 0 && notes[n - 1].Failure? ==> f != [] && f[|f| - 1] - notes[n - 1].at > FAILURE_WINDOW
  }

  /** The queue is the unbroken run of failures at the end of the notes, as far back as the
      window reaches from the last of them. */
  ghost predicate Explained(h: History) {
    var f := h.circuit.failures;
    && EndsWith(h.notes, f) && Complete(h.notes, f) && Ascend(f)
    && (f != [] ==> f[|f| - 1] - f[0] <= FAILURE_WINDOW)
    && |f| <= FAILURE_THRESHOLD
    && (h.circuit.openedAt.Some? <==> |f| == FAILURE_THRESHOLD)
    && (h.circuit.openedAt.Some? ==> h.circuit.openedAt.value == f[|f| - 1])
  }

  /** The router's order: time does not go back, and a supplier only fails or answers if it
      was not skipped. */
  predicate Served(h: History, e: Event, last: real) {
    last <= e.at && (e.Asked? || h.circuit.openedAt.None?)
  }

  predicate NotesAscend(notes: seq<Note>) {
    forall i, j :: 0 <= i < j < |notes| ==> notes[i].at <= notes[j].at
  }

  predicate NotesBefore(h: History, last: real) {
    NotesAscend(h.notes) && forall i :: 0 <= i < |h.notes| ==> h.notes[i].at <= last
  }

  lemma {:induction false} ForgetKeepsSuffix(f: seq<real>, now: real)
    requires f != [] && f[|f| - 1] == now && Ascend(f)
    ensures var g := ForgetOld(f, now);
            && 0 < |g| <= |f| && g == f[|f| - |g|..]
            && now - g[0] <= FAILURE_WINDOW
            && (|g| < |f| ==> now - f[|f| - |g| - 1] > FAILURE_WINDOW)
  {
    if now - f[0] > FAILURE_WINDOW {
      ForgetKeepsSuffix(f[1..], now);
    }
  }

  lemma HappenKeeps(h: History, e: Event, last: real)
    requires Explained(h) && NotesBefore(h, last) && Served(h, e, last)
    ensures Explained(Happen(h, e)) && NotesBefore(Happen(h, e), e.at)
  {
    if e.Fails? {
      FailureKeeps(h, e.at, last);
    }
  }

  lemma FailureKeeps(h: History, at: real, last: real)
    requires Explained(h) && h.circuit.openedAt.None? && NotesBefore(h, last) && last <= at
    ensures Explained(Happen(h, Fails(at)))
  {
    hide Ascend, EndsWith, Complete, ForgetOld, NotesBefore;
    var f := h.circuit.failures;
    LastFailure(h, last);
    AscendExtends(f, at);
    var g := ForgetOld(f + [at], at);
    ForgetKeepsSuffix(f + [at], at);
    QueueKeeps(h.notes, f, at, g);
  }

  lemma QueueKeeps(notes: seq<Note>, f: seq<real>, at: real, g: seq<real>)
    requires EndsWith(notes, f) && Complete(notes, f) && Ascend(f + [at])
    requires 0 < |g| <= |f| + 1 && g == (f + [at])[|f| + 1 - |g|..]
    requires |g| < |f| + 1 ==> at - (f + [at])[|f| - |g|] > FAILURE_WINDOW
    ensures EndsWith(notes + [Failure(at)], g) && Complete(notes + [Failure(at)], g) && Ascend(g)
  {
    hide Ascend, EndsWith, Complete;
    EndExtends(notes, f, at);
    EndDrops(notes + [Failure(at)], f + [at], g);
    CompleteExtends(notes, f, at, g);
    AscendDrops(f + [at], g);
  }

  lemma LastFailure(h: History, last: real)
    requires Explained(h) && NotesBefore(h, last)
    ensures forall i :: 0 <= i < |h.circuit.failures| ==> h.circuit.failures[i] <= last
  {
    var f := h.circuit.failures;
    forall i | 0 <= i < |f| ensures f[i] <= last {
      assert h.notes[|h.notes| - |f| + i] == Failure(f[i]);
    }
  }

  lemma EndExtends(notes: seq<Note>, f: seq<real>, at: real)
    requires EndsWith(notes, f)
    ensures EndsWith(notes + [Failure(at)], f + [at])
  {
    var more := notes + [Failure(at)];
    forall i | 0 <= i < |f| + 1 ensures more[|notes| - |f| + i] == Failure((f + [at])[i]) {
      if i < |f| {
        assert notes[|notes| - |f| + i] == Failure(f[i]);
      }
    }
  }

  lemma EndDrops(notes: seq<Note>, f: seq<real>, g: seq<real>)
    requires EndsWith(notes, f) && |g| <= |f| && g == f[|f| - |g|..]
    ensures EndsWith(notes, g)
  {
    forall i | 0 <= i < |g| ensures notes[|notes| - |g| + i] == Failure(g[i]) {
      assert notes[|notes| - |f| + (|f| - |g| + i)] == Failure(f[|f| - |g| + i]);
    }
  }

  lemma AscendExtends(f: seq<real>, at: real)
    requires Ascend(f) && forall i :: 0 <= i < |f| ==> f[i] <= at
    ensures Ascend(f + [at])
  {
  }

  lemma AscendDrops(f: seq<real>, g: seq<real>)
    requires Ascend(f) && |g| <= |f| && g == f[|f| - |g|..]
    ensures Ascend(g)
  {
  }

  lemma CompleteExtends(notes: seq<Note>, f: seq<real>, at: real, g: seq<real>)
    requires EndsWith(notes, f) && Complete(notes, f) && Ascend(f + [at])
    requires 0 < |g| <= |f| + 1 && g == (f + [at])[|f| + 1 - |g|..]
    requires |g| < |f| + 1 ==> at - (f + [at])[|f| - |g|] > FAILURE_WINDOW
    ensures Complete(notes + [Failure(at)], g)
  {
    var k := |f| + 1 - |g|;
    if k > 0 {
      assert notes[|notes| - |f| + (k - 1)] == Failure(f[k - 1]);
    } else if f != [] {
      assert (f + [at])[|f| - 1] <= (f + [at])[|f|];
    }
  }

  predicate InOrder(events: seq<Event>) {
    events == []
    || (InOrder(events[..|events| - 1])
        && Served(Live(events[..|events| - 1]), events[|events| - 1], LastTime(events[..|events| - 1], events[|events| - 1].at)))
  }

  function LastTime(events: seq<Event>, otherwise: real): real {
    if events == [] then otherwise else events[|events| - 1].at
  }

  lemma {:induction false} EveryRunIsExplained(events: seq<Event>)
    requires InOrder(events)
    ensures Explained(Live(events))
    ensures if events != [] then NotesBefore(Live(events), events[|events| - 1].at) else Live(events).notes == []
  {
    if events != [] {
      var front := events[..|events| - 1];
      EveryRunIsExplained(front);
      HappenKeeps(Live(front), events[|events| - 1], LastTime(front, events[|events| - 1].at));
    }
  }

  /** Five failures in a row at the end of what happened, within ten minutes of each other. */
  predicate FiveInARow(notes: seq<Note>) {
    var n := |notes|;
    && n >= 5
    && (forall i :: n - 5 <= i < n ==> notes[i].Failure?)
    && notes[n - 1].at - notes[n - 5].at <= 600.0
  }

  /** A supplier is skipped exactly when the last five things that happened to it, with no
      success and no half-open between them, are failures no more than ten minutes apart and
      the last of them is less than two minutes old. The queue never holds more than five and
      is in order. */
  lemma SkippedIff(events: seq<Event>, now: real)
    requires InOrder(events)
    ensures var h := Live(events);
            && (Ask(h.circuit, now).1 <==> FiveInARow(h.notes) && now - h.notes[|h.notes| - 1].at < 120.0)
            && |h.circuit.failures| <= FAILURE_THRESHOLD
            && forall i, j :: 0 <= i < j < |h.circuit.failures| ==> h.circuit.failures[i] <= h.circuit.failures[j]
  {
    EveryRunIsExplained(events);
    var h := Live(events);
    var f := h.circuit.failures;
    var n := |h.notes| - |f|;
    if h.circuit.openedAt.Some? {
      forall i | |h.notes| - FAILURE_THRESHOLD <= i < |h.notes| ensures h.notes[i].Failure? {
        assert h.notes[n + (i - n)] == Failure(f[i - n]);
      }
      assert h.notes[n + 0] == Failure(f[0]) && h.notes[n + 4] == Failure(f[4]);
    } else {
      ShortRunBreaks(h);
    }
  }

  /** A queue that stops short of five does so because something came between, or because the
      failure before it is out of the window. */
  lemma ShortRunBreaks(h: History)
    requires Explained(h) && NotesAscend(h.notes) && |h.circuit.failures| < FAILURE_THRESHOLD
    ensures !FiveInARow(h.notes)
  {
    var f := h.circuit.failures;
    var n := |h.notes| - |f|;
    if |h.notes| >= FAILURE_THRESHOLD && h.notes[n - 1].Failure? {
      assert h.notes[n + (|f| - 1)] == Failure(f[|f| - 1]);
      assert h.notes[|h.notes| - FAILURE_THRESHOLD].at <= h.notes[n - 1].at;
    }
  }

  // ------------------------------------------------------------ runs of the router

  /** What a supplier's turn makes of its circuit, whether the next supplier gets one, and
      the same as events. */
  function AfterTurn(c: Circuit, t: Turn): Circuit {
    var (circuit, open) := Ask(c, t.asked);
    if open || t.reply.RefusesRequest? then circuit
    else if t.reply.Transcribes? then CLOSED
    else Failed(circuit, t.answered)
  }

  predicate GoesOn(c: Circuit, t: Turn) {
    Ask(c, t.asked).1 || t.reply.FailsForNow?
  }

  function TurnEvents(c: Circuit, t: Turn): seq<Event> {
    if Ask(c, t.asked).1 || t.reply.RefusesRequest? then [Asked(t.asked)]
    else [Asked(t.asked), if t.reply.Transcribes? then Succeeds(t.answered) else Fails(t.answered)]
  }

  lemma OneTurn(circuits: Circuits, names: seq<string>, turns: seq<Turn>, i: nat, rescued: bool)
    returns (next: Circuits, saved: bool)
    requires i < |names| == |turns|
    requires forall n :: n in names ==> n in circuits
    ensures next == circuits[names[i] := AfterTurn(circuits[names[i]], turns[i])]
    ensures Transcribe(circuits, names, turns, i, rescued).0
         == if GoesOn(circuits[names[i]], turns[i]) then Transcribe(next, names, turns, i + 1, saved).0 else next
  {
    hide Failed;
    var c := circuits[names[i]];
    next := circuits[names[i] := AfterTurn(c, turns[i])];
    var (circuit, open) := Ask(c, turns[i].asked);
    saved := rescued || !open;
    var asked := circuits[names[i] := circuit];
    assert asked[names[i] := CLOSED] == circuits[names[i] := CLOSED];
    assert asked[names[i] := Failed(circuit, turns[i].answered)] == circuits[names[i] := Failed(circuit, turns[i].answered)];
  }

  /** What one request does to one supplier's circuit. */
  function EventsOf(circuits: Circuits, names: seq<string>, turns: seq<Turn>, i: nat, name: string): seq<Event>
    requires i <= |names| == |turns|
    requires forall n :: n in names ==> n in circuits
    decreases |names| - i
  {
    if i == |names| then []
    else
      var c := circuits[names[i]];
      (if names[i] == name then TurnEvents(c, turns[i]) else [])
      + (if GoesOn(c, turns[i]) then EventsOf(circuits[names[i] := AfterTurn(c, turns[i])], names, turns, i + 1, name)
         else [])
  }

  /** The clock does not go back from `last` on. */
  predicate Clocked(turns: seq<Turn>, i: nat, last: real)
    decreases |turns| - i
  {
    i >= |turns| || (last <= turns[i].asked <= turns[i].answered && Clocked(turns, i + 1, turns[i].answered))
  }

  function EndOf(turns: seq<Turn>, last: real): real {
    if turns == [] then last else turns[|turns| - 1].answered
  }

  /** The events so far, and the circuit they lead to. */
  ghost predicate Follows(c: Circuit, past: seq<Event>, last: real) {
    InOrder(past) && Live(past).circuit == c && (past != [] ==> past[|past| - 1].at <= last)
  }

  lemma OneEvent(c: Circuit, past: seq<Event>, last: real, e: Event)
    requires Follows(c, past, last) && last <= e.at && (e.Asked? || c.openedAt.None?)
    ensures Follows(Happen(Live(past), e).circuit, past + [e], e.at)
  {
    assert (past + [e])[..|past|] == past;
  }

  lemma Later(c: Circuit, past: seq<Event>, last: real, later: real)
    requires Follows(c, past, last) && last <= later
    ensures Follows(c, past, later)
  {
  }

  lemma TurnFollows(c: Circuit, past: seq<Event>, last: real, t: Turn)
    requires Follows(c, past, last) && last <= t.asked <= t.answered
    ensures Follows(AfterTurn(c, t), past + TurnEvents(c, t), t.answered)
  {
    hide InOrder, Live, Follows, Failed;
    var (circuit, open) := Ask(c, t.asked);
    var asked := past + [Asked(t.asked)];
    AskedFollows(c, past, last, t.asked);
    if open || t.reply.RefusesRequest? {
      Later(circuit, asked, t.asked, t.answered);
    } else {
      AnswerFollows(circuit, asked, t.asked, t.answered);
      assert past + TurnEvents(c, t)
          == asked + [if t.reply.Transcribes? then Succeeds(t.answered) else Fails(t.answered)];
    }
  }

  lemma AskedFollows(c: Circuit, past: seq<Event>, last: real, at: real)
    requires Follows(c, past, last) && last <= at
    ensures Follows(Ask(c, at).0, past + [Asked(at)], at)
  {
    hide InOrder, Live;
    OneEvent(c, past, last, Asked(at));
  }

  lemma AnswerFollows(c: Circuit, past: seq<Event>, last: real, at: real)
    requires Follows(c, past, last) && last <= at && c.openedAt.None?
    ensures Follows(CLOSED, past + [Succeeds(at)], at)
    ensures Follows(Failed(c, at), past + [Fails(at)], at)
  {
    hide InOrder, Live;
    OneEvent(c, past, last, Succeeds(at));
    OneEvent(c, past, last, Fails(at));
  }

  lemma {:induction false} RequestFollows(
      circuits: Circuits, names: seq<string>, turns: seq<Turn>, i: nat, rescued: bool,
      name: string, past: seq<Event>, last: real)
    requires i <= |names| == |turns| && name in circuits && Clocked(turns, i, last)
    requires forall n :: n in names ==> n in circuits
    requires Follows(circuits[name], past, last)
    ensures var after := Transcribe(circuits, names, turns, i, rescued).0;
            && after.Keys == circuits.Keys
            && Follows(after[name], past + EventsOf(circuits, names, turns, i, name), EndOf(turns[i..], last))
    decreases |names| - i
  {
    hide Follows, Ask, Failed, AfterTurn, GoesOn, TurnEvents;
    if i == |names| {
      assert past + [] == past;
    } else {
      var t, c := turns[i], circuits[names[i]];
      var next, saved := OneTurn(circuits, names, turns, i, rescued);
      hide Transcribe;
      ClockRuns(turns, i + 1, t.answered);
      EndOfRest(turns, i, last);
      var done := past + (if names[i] == name then TurnEvents(c, t) else []);
      if names[i] == name {
        TurnFollows(c, past, last, t);
      } else {
        assert done == past;
        Later(circuits[name], past, last, t.answered);
      }
      if GoesOn(c, t) {
        RequestFollows(next, names, turns, i + 1, saved, name, done, t.answered);
        assert past + EventsOf(circuits, names, turns, i, name) == done + EventsOf(next, names, turns, i + 1, name);
      } else {
        assert past + EventsOf(circuits, names, turns, i, name) == done;
        Later(next[name], done, t.answered, EndOf(turns[i..], last));
      }
    }
  }

  lemma {:induction false} ClockRuns(turns: seq<Turn>, i: nat, last: real)
    requires i <= |turns| && Clocked(turns, i, last)
    ensures last <= EndOf(turns[i..], last)
    decreases |turns| - i
  {
    if i < |turns| {
      ClockRuns(turns, i + 1, turns[i].answered);
      EndOfRest(turns, i, last);
    }
  }

  lemma EndOfRest(turns: seq<Turn>, i: nat, last: real)
    requires i < |turns|
    ensures EndOf(turns[i..], last) == EndOf(turns[i + 1..], turns[i].answered)
  {
  }

  /** Requests one after the other. */
  function Requests(circuits: Circuits, names: seq<string>, requests: seq<seq<Turn>>): Circuits
    requires forall r :: r in requests ==> |r| == |names|
    requires forall n :: n in names ==> n in circuits
    ensures Requests(circuits, names, requests).Keys == circuits.Keys
    decreases |requests|
  {
    if requests == [] then circuits
    else
      KeysStay(circuits, names, requests[0], 0, false);
      Requests(Transcribe(circuits, names, requests[0], 0, false).0, names, requests[1..])
  }

  lemma {:induction false} KeysStay(circuits: Circuits, names: seq<string>, turns: seq<Turn>, i: nat, rescued: bool)
    requires i <= |names| == |turns|
    requires forall n :: n in names ==> n in circuits
    ensures Transcribe(circuits, names, turns, i, rescued).0.Keys == circuits.Keys
    decreases |names| - i
  {
    if i < |names| {
      var (circuit, open) := Ask(circuits[names[i]], turns[i].asked);
      var asked := circuits[names[i] := circuit];
      if open {
        KeysStay(asked, names, turns, i + 1, rescued);
      } else if turns[i].reply.FailsForNow? {
        KeysStay(asked[names[i] := Failed(circuit, turns[i].answered)], names, turns, i + 1, true);
      }
    }
  }

  function AllEvents(circuits: Circuits, names: seq<string>, requests: seq<seq<Turn>>, name: string): seq<Event>
    requires forall r :: r in requests ==> |r| == |names|
    requires forall n :: n in names ==> n in circuits
    decreases |requests|
  {
    if requests == [] then []
    else
      KeysStay(circuits, names, requests[0], 0, false);
      EventsOf(circuits, names, requests[0], 0, name)
      + AllEvents(Transcribe(circuits, names, requests[0], 0, false).0, names, requests[1..], name)
  }

  /** No request starts before the one before it ended. */
  predicate Serial(requests: seq<seq<Turn>>, last: real)
    decreases |requests|
  {
    requests == []
    || (Clocked(requests[0], 0, last) && Serial(requests[1..], EndOf(requests[0], last)))
  }

  lemma OneRequest(circuits: Circuits, names: seq<string>, requests: seq<seq<Turn>>, name: string)
    returns (next: Circuits, events: seq<Event>)
    requires forall r :: r in requests ==> |r| == |names|
    requires forall n :: n in names ==> n in circuits
    requires requests != []
    ensures next == Transcribe(circuits, names, requests[0], 0, false).0 && next.Keys == circuits.Keys
    ensures events == EventsOf(circuits, names, requests[0], 0, name)
    ensures Requests(circuits, names, requests) == Requests(next, names, requests[1..])
    ensures AllEvents(circuits, names, requests, name) == events + AllEvents(next, names, requests[1..], name)
  {
    hide Transcribe, EventsOf;
    KeysStay(circuits, names, requests[0], 0, false);
    next := Transcribe(circuits, names, requests[0], 0, false).0;
    events := EventsOf(circuits, names, requests[0], 0, name);
  }

  lemma {:induction false} RunFollows(
      circuits: Circuits, names: seq<string>, requests: seq<seq<Turn>>, name: string, past: seq<Event>, last: real)
    returns (end: real)
    requires forall r :: r in requests ==> |r| == |names|
    requires forall n :: n in names ==> n in circuits
    requires name in circuits && Serial(requests, last) && Follows(circuits[name], past, last)
    ensures Follows(Requests(circuits, names, requests)[name], past + AllEvents(circuits, names, requests, name), end)
    decreases |requests|
  {
    hide *;
    if requests == [] {
      NoRequests(circuits, names, name);
      assert past + [] == past;
      end := last;
    } else {
      var next, events := OneRequest(circuits, names, requests, name);
      FirstRequestFollows(circuits, names, requests, name, past, last);
      end := RunFollows(next, names, requests[1..], name, past + events, EndOf(requests[0], last));
      assert past + AllEvents(circuits, names, requests, name)
          == past + events + AllEvents(next, names, requests[1..], name);
    }
  }

  lemma NoRequests(circuits: Circuits, names: seq<string>, name: string)
    requires forall n :: n in names ==> n in circuits
    ensures Requests(circuits, names, []) == circuits && AllEvents(circuits, names, [], name) == []
  {
  }

  lemma FirstRequestFollows(
      circuits: Circuits, names: seq<string>, requests: seq<seq<Turn>>, name: string, past: seq<Event>, last: real)
    requires forall r :: r in requests ==> |r| == |names|
    requires forall n :: n in names ==> n in circuits
    requires requests != [] && name in circuits && Serial(requests, last) && Follows(circuits[name], past, last)
    ensures Serial(requests[1..], EndOf(requests[0], last))
    ensures var after := Transcribe(circuits, names, requests[0], 0, false).0;
            && after.Keys == circuits.Keys
            && Follows(after[name], past + EventsOf(circuits, names, requests[0], 0, name), EndOf(requests[0], last))
  {
    hide Follows, Transcribe, EventsOf, EndOf, Clocked;
    assert requests[0][0..] == requests[0];
    RequestFollows(circuits, names, requests[0], 0, false, name, past, last);
  }

  /** A new router, one breaker a supplier. */
  function NewRouter(names: seq<string>): Circuits {
    map n | n in names :: CLOSED
  }

  /** Over any serial run of the router: it would skip a supplier at `now` exactly when that
      supplier's last five notes are failures within ten minutes, with no success and no
      half-open among them, and the last is less than two minutes old. */
  lemma RouterSkipsIff(names: seq<string>, requests: seq<seq<Turn>>, name: string, start: real, now: real)
    requires name in names && Serial(requests, start)
    requires forall r :: r in requests ==> |r| == |names|
    ensures var circuit := Requests(NewRouter(names), names, requests)[name];
            var notes := Live(AllEvents(NewRouter(names), names, requests, name)).notes;
            Ask(circuit, now).1 <==> FiveInARow(notes) && now - notes[|notes| - 1].at < 120.0
  {
    NothingYet(start);
    hide InOrder, Live, AllEvents, Requests, FiveInARow, Serial, Ask;
    var _ := RunFollows(NewRouter(names), names, requests, name, [], start);
    var events := AllEvents(NewRouter(names), names, requests, name);
    assert [] + events == events;
    SkippedIff(events, now);
  }

  lemma NothingYet(start: real)
    ensures Follows(CLOSED, [], start)
  {
  }
}
