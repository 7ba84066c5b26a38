/** A recording from the first poll to the manifest: the session's rules, the loop that drains
    the devices into the writer, and the end that is owed a finished file whatever happened. */
module Capture {
  import opened Prelude
  import opened Assembly
  import opened Recording
  import opened Tape
  import Finished
  import SegmentWriter

  // ------------------------------------------------------------ the session, as a value

  datatype AppState = Idle | Recording | Paused | Uploading | Processing

  function Allowed(s: AppState): set<AppState> {
    match s
    case Idle => {Recording}
    case Recording => {Paused, Uploading}
    case Paused => {Recording, Uploading}
    case Uploading => {Processing, Idle}
    case Processing => {Idle}
  }

  datatype BudgetEvent = Continue | Warn | Stop

  /** `limit`, `recorded` and `discarded` in milliseconds. */
  datatype Rules = Rules(state: AppState, limit: nat, recorded: nat, discarded: nat, warned: bool)

  const CEILING := 4 * 60 * 60 * 1000
  const WARN_BEFORE := 5 * 60 * 1000

  function Begin(limit: nat): Rules {
    Rules(Recording, Min(limit, CEILING), 0, 0, false)
  }

  function Move(s: Rules, to: AppState): Option<Rules> {
    if to in Allowed(s.state) then Some(s.(state := to)) else None
  }

  function Resume(s: Rules): Option<Rules> {
    if s.state != Paused then None else Move(s, Recording)
  }

  /** Some audio, kept or not: the totals after it, and the budget's verdict on them. */
  function Count(s: Rules, ms: nat): (Rules, BudgetEvent) {
    if s.state != Recording then (s.(discarded := s.discarded + ms), Continue)
    else
      var t := s.(recorded := s.recorded + ms);
      if t.recorded >= t.limit then (t, Stop)
      else if !t.warned && t.recorded + WARN_BEFORE >= t.limit then (t.(warned := true), Warn)
      else (t, Continue)
  }

  class Session {
    var state: AppState
    var limit: nat
    var recorded: nat
    var discarded: nat
    var warned: bool

    function View(): Rules
      reads this
    {
      Rules(state, limit, recorded, discarded, warned)
    }

    constructor (limit: nat)
      ensures View() == Begin(limit)
    {
      state, this.limit, recorded, discarded, warned := Recording, Min(limit, CEILING), 0, 0, false;
    }

    method Transition(target: AppState) returns (ok: bool)
      modifies this`state
      ensures ok <==> Move(old(View()), target).Some?
      ensures View() == if ok then Move(old(View()), target).value else old(View())
    {
      ok := target in Allowed(state);
      if ok {
        state := target;
      }
    }

    method ResumeCapture() returns (ok: bool)
      modifies this`state
      ensures ok <==> Resume(old(View())).Some?
      ensures View() == if ok then Resume(old(View())).value else old(View())
    {
      if state != Paused {
        return false;
      }
      ok := Transition(Recording);
    }

    method Counted(ms: nat) returns (event: BudgetEvent)
      modifies this`recorded, this`discarded, this`warned
      ensures (View(), event) == Count(old(View()), ms)
    {
      if state != Recording {
        discarded := discarded + ms;
        return Continue;
      }
      recorded := recorded + ms;
      if recorded >= limit {
        return Stop;
      }
      if !warned && recorded + WARN_BEFORE >= limit {
        warned := true;
        return Warn;
      }
      event := Continue;
    }
  }

  // ------------------------------------------------------------ the loop, as a function

  datatype Command = AskPause | AskResume | AskFinish

  /** One round of the loop: the mailbox, whether its senders are gone, and what the devices
      had ready, left and right interleaved. */
  datatype Round = Round(commands: seq<Command>, abandoned: bool, audio: seq<Sample>)

  predicate Stereo(rounds: seq<Round>) {
    forall i :: 0 <= i < |rounds| ==> |rounds[i].audio| % 2 == 0
  }

  /** The rules after these commands, and whether one of them ends the loop. */
  function Obey(s: Rules, commands: seq<Command>, abandoned: bool): (Rules, bool)
    decreases |commands|
  {
    if commands == [] then (s, abandoned)
    else
      match commands[0]
      case AskPause =>
        var moved := Move(s, Paused);
        Obey(if moved.Some? then moved.value else s, commands[1..], abandoned)
      case AskResume =>
        var moved := Resume(s);
        Obey(if moved.Some? then moved.value else s, commands[1..], abandoned)
      case AskFinish =>
        if Uploading in Allowed(s.state) then (s, true) else Obey(s, commands[1..], abandoned)
  }

  function FramesToMs(frames: nat): nat {
    frames * 1000 / SAMPLE_RATE
  }

  /** The whole milliseconds `frames` more add to a running total. */
  function Added(total: nat, frames: nat): (ms: nat)
    ensures FramesToMs(total) + ms == FramesToMs(total + frames)
  {
    FramesToMs(total + frames) - FramesToMs(total)
  }

  /** Where a capture has got to. `fed` is all the audio the writer was handed, `events` what
      the session answered about audio that was kept, `last` the milliseconds of the last. */
  datatype Progress = Progress(
    session: Rules, kept: nat, dropped: nat, fed: seq<Sample>, writer: Drained,
    failed: bool, events: seq<BudgetEvent>, last: nat)

  /** One round: whether the loop goes on. */
  function Listen(rig: Rig, p: Progress, round: Round): (Progress, bool) {
    var (session, stop) := Obey(p.session, round.commands, round.abandoned);
    var p := p.(session := session);
    if stop then (p, false)
    else
      var frames := |round.audio| / 2;
      if frames == 0 then (p, true)
      else if session.state != Recording then
        var ms := Added(p.dropped, frames);
        (p.(dropped := p.dropped + frames, session := Count(session, ms).0), true)
      else
        var ms := Added(p.kept, frames);
        var p := p.(kept := p.kept + frames);
        var writer := Drain(rig, p.writer.tape, p.writer.rest + round.audio);
        var p := p.(fed := p.fed + round.audio, writer := writer);
        if writer.answer.Err? then (p.(failed := true), false)
        else
          var (counted, event) := Count(session, ms);
          (p.(session := counted, events := p.events + [event], last := ms), event != Stop)
  }

  /** Round after round until something ends it, or the devices stop. */
  function Capture(rig: Rig, p: Progress, rounds: seq<Round>): Progress
    decreases |rounds|
  {
    if rounds == [] then p
    else
      var (next, more) := Listen(rig, p, rounds[0]);
      if more then Capture(rig, next, rounds[1..]) else next
  }

  function Start(limit: nat): Progress {
    Progress(Begin(limit), 0, 0, [], SegmentWriter.FRESH, false, [], 0)
  }

  /** After the last round: what the queues still hold is written, unless the session is paused. */
  function Wrap(rig: Rig, p: Progress, tail: seq<Sample>): Progress {
    var p :=
      if p.session.state == Recording && tail != [] then
        var writer := Drain(rig, p.writer.tape, p.writer.rest + tail);
        p.(fed := p.fed + tail, writer := writer, failed := p.failed || writer.answer.Err?,
           session := Count(p.session, Added(0, |tail| / 2)).0)
      else p;
    var ended := Move(p.session, Uploading);
    p.(session := if ended.Some? then ended.value else p.session)
  }

  // ------------------------------------------------------------ the loop, as it runs

  method ObeyAll(session: Session, commands: seq<Command>, abandoned: bool) returns (stop: bool)
    modifies session
    ensures (session.View(), stop) == Obey(old(session.View()), commands, abandoned)
  {
    var i := 0;
    while i < |commands|
      invariant 0 <= i <= |commands|
      invariant Obey(session.View(), commands[i..], abandoned) == Obey(old(session.View()), commands, abandoned)
    {
      assert commands[i..][1..] == commands[i + 1..];
      match commands[i] {
        case AskPause => var _ := session.Transition(Paused);
        case AskResume => var _ := session.ResumeCapture();
        case AskFinish =>
          if Uploading in Allowed(session.state) {
            return true;
          }
      }
      i := i + 1;
    }
    stop := abandoned;
  }

  /** Round after round, up to the first whose commands or totals stop the session or whose
      audio the writer refuses; it reaches what `Capture` does. */
  method CaptureLoop(session: Session, writer: SegmentWriter.Writer, rounds: seq<Round>)
    returns (failed: bool, ghost p: Progress)
    requires writer.Sound() && writer.fed == [] && session.View() == Begin(session.limit)
    modifies session, writer
    ensures p == Capture(writer.rig, Start(old(session.limit)), rounds)
    ensures session.View() == p.session && failed == p.failed
    ensures writer.Valid() && writer.fed == p.fed
    ensures writer.State() == p.writer.tape && writer.Live() == p.writer.rest
    ensures !failed ==> writer.Sound()
  {
    hide TapeOf, Rest, Frames, AllFrames, PerSegment;
    var keptFrames, droppedFrames := 0, 0;
    var i := 0;
    failed := false;
    SegmentWriter.BlankIsTheFormula(writer.rig);
    p := Start(session.limit);
    while i < |rounds|
      invariant 0 <= i <= |rounds| && !failed && !p.failed
      invariant Capture(writer.rig, p, rounds[i..]) == Capture(writer.rig, Start(old(session.limit)), rounds)
      invariant session.View() == p.session && keptFrames == p.kept && droppedFrames == p.dropped
      invariant writer.Sound() && writer.fed == p.fed
      invariant writer.State() == p.writer.tape && writer.Live() == p.writer.rest
    {
      ghost var (next, more) := Listen(writer.rig, p, rounds[i]);
      assert rounds[i..][0] == rounds[i] && rounds[i..][1..] == rounds[i + 1..];
      var stop := ObeyAll(session, rounds[i].commands, rounds[i].abandoned);
      if stop {
        p := next;
        return;
      }
      var frames := |rounds[i].audio| / 2;
      if frames > 0 {
        var ms;
        if session.state == Recording {
          ms := Added(keptFrames, frames);
          keptFrames := keptFrames + frames;
          var written := writer.Write(rounds[i].audio);
          if written.Err? {
            failed := true;
            p := next;
            return;
          }
        } else {
          ms := Added(droppedFrames, frames);
          droppedFrames := droppedFrames + frames;
        }
        var event := session.Counted(ms);
        stop := event == Stop;
      }
      p := next;
      i := i + 1;
      if stop {
        return;
      }
    }
  }

  /** The whole recording, tail and manifest included. */
  method Record(session: Session, writer: SegmentWriter.Writer, rounds: seq<Round>, tail: seq<Sample>,
                inputDevice: string, outputDevice: string, startSkewMs: int)
    returns (manifest: Result<SegmentWriter.Manifest, EncodeError>, failed: bool, ghost p: Progress)
    requires writer.Sound() && writer.fed == [] && session.View() == Begin(session.limit)
    modifies session, writer
    ensures p == Wrap(writer.rig, Capture(writer.rig, Start(old(session.limit)), rounds), tail)
    ensures session.View() == p.session && failed == p.failed
    ensures !failed && manifest.Ok? ==>
              && (Unfinished(writer.rig, p.fed) ==> AllFrames(p.fed) != [])
              && writer.State() == FinalTape(writer.rig, AllFrames(p.fed), Unfinished(writer.rig, p.fed))
              && manifest.value.totalSamples == writer.total && manifest.value.segments == writer.segments
              && manifest.value.durationMs == SamplesToMs(writer.total)
  {
    failed, p := CaptureLoop(session, writer, rounds);
    p := Wrap(writer.rig, p, tail);
    if session.state == Recording && |tail| > 0 {
      var ms := Added(0, |tail| / 2);
      var written := writer.Write(tail);
      if written.Err? {
        failed := true;
      }
      var _ := session.Counted(ms);
    }
    var _ := session.Transition(Uploading);
    manifest := writer.FinishRecording(inputDevice, outputDevice, startSkewMs);
  }

  // ------------------------------------------------------------ what is billed

  predicate Capturing(s: Rules) {
    s.state == Recording || s.state == Paused
  }

  /** Kept through the loop: what is billed is what was kept, to the millisecond; what was
      kept is what the writer was handed; and the limit is overrun by the last poll at most. */
  ghost predicate Accounted(rig: Rig, p: Progress)
    requires PerSegment(rig) > 0
  {
    && Capturing(p.session)
    && |p.fed| == 2 * p.kept
    && p.session.discarded == FramesToMs(p.dropped)
    && p.session.recorded <= FramesToMs(p.kept)
    && (p.session.limit > 0 || p.events != [] ==> p.session.recorded <= p.session.limit + p.last)
    && (p.session.limit > 0 ==> p.session.recorded < p.session.limit + p.last || p.events == [])
    && (p.events == [] ==> p.session.recorded == 0)
    && (p.session.limit == 0 && p.events != [] ==> p.session.state == Recording && p.session.recorded == p.last)
    && (!p.failed ==>
          && p.session.recorded == FramesToMs(p.kept)
          && p.writer.answer == Ok(())
          && p.writer.rest == Rest(p.fed) && p.writer.tape == TapeOf(rig, Frames(p.fed)))
  }

  lemma {:induction false} ObeyKeeps(s: Rules, commands: seq<Command>, abandoned: bool)
    requires Capturing(s)
    ensures var (t, _) := Obey(s, commands, abandoned);
            && Capturing(t) && t == s.(state := t.state)
    decreases |commands|
  {
    if commands != [] {
      match commands[0]
      case AskPause =>
        var moved := Move(s, Paused);
        ObeyKeeps(if moved.Some? then moved.value else s, commands[1..], abandoned);
      case AskResume =>
        var moved := Resume(s);
        ObeyKeeps(if moved.Some? then moved.value else s, commands[1..], abandoned);
      case AskFinish =>
    }
  }

  lemma WrittenKeeps(rig: Rig, fed: seq<Sample>, more: seq<Sample>)
    requires PerSegment(rig) > 0
    ensures var d := Drain(rig, TapeOf(rig, Frames(fed)), Rest(fed) + more);
            d.answer.Ok? ==>
              d.answer == Ok(()) && d.rest == Rest(fed + more) && d.tape == TapeOf(rig, Frames(fed + more))
  {
    hide *;
    SegmentWriter.WriteKeeps(rig, fed, more, TapeOf(rig, Frames(fed)), Rest(fed));
    var d := Drain(rig, TapeOf(rig, Frames(fed)), Rest(fed) + more);
    if d.answer.Ok? {
      assert d.answer.value == ();
    }
  }

  /** Inside the loop the limit has not been reached yet. */
  predicate UnderLimit(p: Progress) {
    !p.failed && (p.events == [] || p.session.recorded < p.session.limit)
  }

  lemma ListenKeeps(rig: Rig, p: Progress, round: Round)
    requires PerSegment(rig) > 0 && Accounted(rig, p) && UnderLimit(p) && |round.audio| % 2 == 0
    ensures var (next, more) := Listen(rig, p, round);
            && Accounted(rig, next) && next.session.limit == p.session.limit
            && (more ==> UnderLimit(next))
  {
    hide Drain, TapeOf, Rest, Frames, PerSegment, Obey;
    ObeyKeeps(p.session, round.commands, round.abandoned);
    WrittenKeeps(rig, p.fed, round.audio);
  }

  lemma {:induction false} CaptureKeeps(rig: Rig, p: Progress, rounds: seq<Round>)
    requires PerSegment(rig) > 0 && Accounted(rig, p) && UnderLimit(p) && Stereo(rounds)
    ensures Accounted(rig, Capture(rig, p, rounds))
    ensures Capture(rig, p, rounds).session.limit == p.session.limit
    decreases |rounds|
  {
    hide Accounted, Listen, UnderLimit, PerSegment;
    if rounds != [] {
      ListenKeeps(rig, p, rounds[0]);
      var (next, more) := Listen(rig, p, rounds[0]);
      if more {
        CaptureKeeps(rig, next, rounds[1..]);
      }
    }
  }

  lemma StartIsAccounted(rig: Rig, limit: nat)
    requires PerSegment(rig) > 0
    ensures Accounted(rig, Start(limit)) && UnderLimit(Start(limit))
  {
    hide TapeOf, Rest, Frames, PerSegment;
    SegmentWriter.BlankIsTheFormula(rig);
  }

  /** The bill once the tail is in. */
  lemma WrapKeeps(rig: Rig, p: Progress, tail: seq<Sample>)
    requires PerSegment(rig) > 0 && Accounted(rig, p) && |tail| % 2 == 0
    ensures var whole := Wrap(rig, p, tail);
            var kept := if p.session.state == Recording then |tail| / 2 else 0;
            && whole.session.state == Uploading
            && |whole.fed| == 2 * (p.kept + kept)
            && whole.session.recorded == p.session.recorded + FramesToMs(kept)
            && (!whole.failed ==> !p.failed)
            && whole.session.discarded == FramesToMs(p.dropped)
  {
    hide Drain, TapeOf, Rest, Frames, PerSegment;
  }

  /** Without a write failure the billed time of any run is the whole milliseconds of what was
      kept plus those of the tail, and what was thrown away is counted the same way. */
  lemma BilledTime(rig: Rig, limit: nat, rounds: seq<Round>, tail: seq<Sample>)
    requires PerSegment(rig) > 0 && Stereo(rounds) && |tail| % 2 == 0
    ensures var p := Capture(rig, Start(limit), rounds);
            var whole := Wrap(rig, p, tail);
            var kept := if p.session.state == Recording then |tail| / 2 else 0;
            && whole.session.state == Uploading
            && |whole.fed| == 2 * (p.kept + kept)
            && (!whole.failed ==> whole.session.recorded == FramesToMs(p.kept) + FramesToMs(kept))
            && whole.session.discarded == FramesToMs(p.dropped)
  {
    hide Capture, Wrap, Drain, TapeOf, Rest, Frames, PerSegment, UnderLimit;
    StartIsAccounted(rig, limit);
    CaptureKeeps(rig, Start(limit), rounds);
    WrapKeeps(rig, Capture(rig, Start(limit), rounds), tail);
  }

  /** The limit is exceeded by less than the last poll that was kept plus the tail. The one
      exception is a limit of zero, which is exceeded by exactly that much. */
  lemma OverrunIsOnePoll(rig: Rig, limit: nat, rounds: seq<Round>, tail: seq<Sample>)
    requires PerSegment(rig) > 0 && Stereo(rounds) && |tail| % 2 == 0
    ensures var p := Capture(rig, Start(limit), rounds);
            var over := Wrap(rig, p, tail).session.recorded - Min(limit, CEILING);
            && (p.events != [] && limit > 0 ==> over < p.last + FramesToMs(|tail| / 2))
            && (p.events != [] && limit == 0 ==> over == p.last + FramesToMs(|tail| / 2))
            && (p.events == [] ==> over <= FramesToMs(|tail| / 2) - Min(limit, CEILING))
  {
    hide Capture, Wrap, Drain, TapeOf, Rest, Frames, PerSegment, UnderLimit;
    StartIsAccounted(rig, limit);
    CaptureKeeps(rig, Start(limit), rounds);
    WrapKeeps(rig, Capture(rig, Start(limit), rounds), tail);
  }

  // ------------------------------------------------------------ and what the manifest says

  lemma PaddedLength(audio: seq<Sample>)
    ensures |AllFrames(audio)| == (|audio| + FRAME_INTERLEAVED - 1) / FRAME_INTERLEAVED
  {
    CutCount(Padded(audio), FRAME_INTERLEAVED);
  }

  /** The manifest's duration is the billed time, or up to 21 ms more: the padding of the last
      frame and two roundings. */
  lemma ManifestMatchesBill(rig: Rig, limit: nat, rounds: seq<Round>, tail: seq<Sample>)
    requires PerSegment(rig) > 0 && Stereo(rounds) && |tail| % 2 == 0
    ensures var whole := Wrap(rig, Capture(rig, Start(limit), rounds), tail);
            !whole.failed ==>
              var duration := SamplesToMs(FRAME_SAMPLES * |AllFrames(whole.fed)|);
              whole.session.recorded <= duration <= whole.session.recorded + 21
  {
    BilledTime(rig, limit, rounds, tail);
    hide Capture, Wrap, AllFrames;
    PaddedLength(Wrap(rig, Capture(rig, Start(limit), rounds), tail).fed);
  }

  // ------------------------------------------------------------ a pause is a promise

  /** The same script with silence in place of whatever was said while paused. */
  function Hushed(s: Rules, rounds: seq<Round>): seq<Round>
    decreases |rounds|
  {
    if rounds == [] then []
    else
      var (t, _) := Obey(s, rounds[0].commands, rounds[0].abandoned);
      var audio := if t.state == Recording then rounds[0].audio else Silence(|rounds[0].audio|);
      [rounds[0].(audio := audio)] + Hushed(t, rounds[1..])
  }

  /** Nothing said during a pause leaves a trace: not in what is stored, not in what is
      billed, not in when the recording ends. */
  lemma {:induction false} PausedAudioLeavesNoTrace(rig: Rig, p: Progress, s: Rules, rounds: seq<Round>)
    requires s.state == p.session.state
    ensures Capture(rig, p, Hushed(s, rounds)) == Capture(rig, p, rounds)
    decreases |rounds|
  {
    hide Drain;
    if rounds != [] {
      var (t, _) := Obey(s, rounds[0].commands, rounds[0].abandoned);
      StateAlone(s, p.session, rounds[0].commands, rounds[0].abandoned);
      var (next, more) := Listen(rig, p, rounds[0]);
      assert Hushed(s, rounds)[1..] == Hushed(t, rounds[1..]);
      assert Listen(rig, p, Hushed(s, rounds)[0]) == (next, more);
      if more {
        PausedAudioLeavesNoTrace(rig, next, t, rounds[1..]);
      }
    }
  }

  /** What the mailbox does depends on the state alone. */
  lemma {:induction false} StateAlone(a: Rules, b: Rules, commands: seq<Command>, abandoned: bool)
    requires a.state == b.state
    ensures var (s, x) := Obey(a, commands, abandoned);
            var (t, y) := Obey(b, commands, abandoned);
            s.state == t.state && x == y
    decreases |commands|
  {
    if commands != [] {
      match commands[0]
      case AskPause =>
        var s, t := Move(a, Paused), Move(b, Paused);
        StateAlone(if s.Some? then s.value else a, if t.Some? then t.value else b, commands[1..], abandoned);
      case AskResume =>
        var s, t := Resume(a), Resume(b);
        StateAlone(if s.Some? then s.value else a, if t.Some? then t.value else b, commands[1..], abandoned);
      case AskFinish =>
        if Uploading !in Allowed(a.state) {
          StateAlone(a, b, commands[1..], abandoned);
        }
    }
  }

  // ------------------------------------------------------------ what a pause is, told by the commands alone

  /** Whether the last pause or resume asked for was a pause. */
  function LastIsPause(before: bool, commands: seq<Command>): bool {
    if commands == [] then before
    else
      match commands[|commands| - 1]
      case AskPause => true
      case AskResume => false
      case AskFinish => LastIsPause(before, commands[..|commands| - 1])
  }

  /** The commands of these rounds, one after the other. */
  function Asked(rounds: seq<Round>): seq<Command> {
    if rounds == [] then [] else Asked(rounds[..|rounds| - 1]) + rounds[|rounds| - 1].commands
  }

  /** Round `i` is quiet: the last pause or resume asked for by then is a pause. */
  predicate Quiet(rounds: seq<Round>, i: nat)
    requires i < |rounds|
  {
    LastIsPause(false, Asked(rounds[..i + 1]))
  }

  /** The audio of the rounds that are not quiet, in order. */
  function Spoken(rounds: seq<Round>): seq<Sample> {
    if rounds == [] then []
    else
      var last := |rounds| - 1;
      Spoken(rounds[..last]) + (if Quiet(rounds, last) then [] else rounds[last].audio)
  }

  /** The frames of those that are. */
  function Withheld(rounds: seq<Round>): nat {
    if rounds == [] then 0
    else
      var last := |rounds| - 1;
      Withheld(rounds[..last]) + (if Quiet(rounds, last) then |rounds[last].audio| / 2 else 0)
  }

  /** A round that stops the recording by itself: a finish is asked for, or nobody is left to ask. */
  predicate Stops(round: Round) {
    round.abandoned || AskFinish in round.commands
  }

  /** The commands a round gets to obey: those before a finish. */
  function BeforeFinish(commands: seq<Command>): seq<Command> {
    if commands == [] || commands[0] == AskFinish then [] else [commands[0]] + BeforeFinish(commands[1..])
  }

  lemma {:induction false} LastIsPauseAppend(before: bool, a: seq<Command>, b: seq<Command>)
    ensures LastIsPause(before, a + b) == LastIsPause(LastIsPause(before, a), b)
    decreases |b|
  {
    if b == [] {
      assert a + b == a;
    } else {
      assert (a + b)[..|a + b| - 1] == a + b[..|b| - 1];
      LastIsPauseAppend(before, a, b[..|b| - 1]);
    }
  }

  /** The mailbox puts the session in the state that was asked for last, and stops the loop
      exactly when a round stops it. */
  lemma {:induction false} ObeyDoesAsAsked(s: Rules, commands: seq<Command>, abandoned: bool)
    requires Capturing(s)
    ensures var (t, stop) := Obey(s, commands, abandoned);
            && (stop <==> abandoned || AskFinish in commands)
            && (t.state == Paused <==> LastIsPause(s.state == Paused, BeforeFinish(commands)))
            && (AskFinish !in commands ==> BeforeFinish(commands) == commands)
    decreases |commands|
  {
    if commands != [] && commands[0] != AskFinish {
      var moved := if commands[0] == AskPause then Move(s, Paused) else Resume(s);
      var next := if moved.Some? then moved.value else s;
      assert commands == [commands[0]] + commands[1..];
      ObeyDoesAsAsked(next, commands[1..], abandoned);
      LastIsPauseAppend(s.state == Paused, [commands[0]], BeforeFinish(commands[1..]));
      assert LastIsPause(s.state == Paused, [commands[0]]) == (commands[0] == AskPause);
    }
  }

  /** Where the loop has got to after the first `n` rounds. */
  ghost predicate Heeds(p: Progress, rounds: seq<Round>, n: nat) {
    && n <= |rounds|
    && p.fed == Spoken(rounds[..n]) && p.dropped == Withheld(rounds[..n])
    && forall i :: 0 <= i < n ==> !Stops(rounds[i])
  }

  lemma OneMoreRound(rounds: seq<Round>, n: nat)
    requires n < |rounds|
    ensures Spoken(rounds[..n + 1]) == Spoken(rounds[..n]) + (if Quiet(rounds, n) then [] else rounds[n].audio)
    ensures Withheld(rounds[..n + 1]) == Withheld(rounds[..n]) + (if Quiet(rounds, n) then |rounds[n].audio| / 2 else 0)
    ensures Quiet(rounds, n) == LastIsPause(LastIsPause(false, Asked(rounds[..n])), rounds[n].commands)
  {
    var all := rounds[..n + 1];
    assert all[..n] == rounds[..n] && all[n] == rounds[n] && all[..n + 1] == all;
    LastIsPauseAppend(false, Asked(rounds[..n]), rounds[n].commands);
  }

  /** The limit was reached by what round `n` added to the recording. */
  ghost predicate Full(p: Progress, rounds: seq<Round>, n: nat)
    requires n < |rounds|
  {
    p.session.recorded >= p.session.limit && rounds[n].audio != [] && !Quiet(rounds, n)
  }

  /** One round: heeded, or the one that stops the loop. */
  lemma ListenHeeds(rig: Rig, p: Progress, rounds: seq<Round>, n: nat)
    requires Capturing(p.session) && n < |rounds| && |rounds[n].audio| % 2 == 0 && Heeds(p, rounds, n)
    requires p.session.state == Paused <==> LastIsPause(false, Asked(rounds[..n]))
    ensures var (next, more) := Listen(rig, p, rounds[n]);
            && (Stops(rounds[n]) ==>
                  && !more && Heeds(next, rounds, n) && next == p.(session := next.session)
                  && next.session == p.session.(state := next.session.state)
                  && (next.session.state == Paused <==>
                        LastIsPause(false, Asked(rounds[..n]) + BeforeFinish(rounds[n].commands))))
            && (!Stops(rounds[n]) ==>
                  && Heeds(next, rounds, n + 1)
                  && (next.session.state == Paused <==> LastIsPause(false, Asked(rounds[..n + 1]))))
            && Capturing(next.session)
  {
    hide Drain, Obey, Spoken, Withheld, LastIsPause, Asked, Quiet;
    ObeyKeeps(p.session, rounds[n].commands, rounds[n].abandoned);
    ObeyDoesAsAsked(p.session, rounds[n].commands, rounds[n].abandoned);
    if Stops(rounds[n]) {
      LastIsPauseAppend(false, Asked(rounds[..n]), BeforeFinish(rounds[n].commands));
    } else {
      OneMoreAsked(rounds, n);
      OneMoreRound(rounds, n);
      ListenAdds(rig, p, rounds, n);
      hide Listen;
    }
  }

  lemma OneMoreAsked(rounds: seq<Round>, n: nat)
    requires n < |rounds|
    ensures LastIsPause(false, Asked(rounds[..n + 1])) == Quiet(rounds, n)
  {
  }

  /** A round that does not stop the loop: what it adds to the recording, or to what is dropped. */
  lemma ListenAdds(rig: Rig, p: Progress, rounds: seq<Round>, n: nat)
    requires Capturing(p.session) && n < |rounds| && |rounds[n].audio| % 2 == 0 && !Stops(rounds[n])
    requires p.session.state == Paused <==> LastIsPause(false, Asked(rounds[..n]))
    ensures var next := Listen(rig, p, rounds[n]).0;
            && Capturing(next.session) && (next.session.state == Paused <==> Quiet(rounds, n))
            && next.fed == p.fed + (if Quiet(rounds, n) then [] else rounds[n].audio)
            && next.dropped == p.dropped + (if Quiet(rounds, n) then |rounds[n].audio| / 2 else 0)
  {
    hide Drain, Obey, Spoken, Withheld, LastIsPause, Asked, Quiet;
    ObeyKeeps(p.session, rounds[n].commands, rounds[n].abandoned);
    ObeyDoesAsAsked(p.session, rounds[n].commands, rounds[n].abandoned);
    OneMoreRound(rounds, n);
    assert p.fed + [] == p.fed;
    if |rounds[n].audio| / 2 == 0 {
      assert rounds[n].audio == [];
    }
  }

  /** Whether the loop goes on, and if not, what ended it. */
  lemma ListenEnds(rig: Rig, p: Progress, rounds: seq<Round>, n: nat)
    requires Capturing(p.session) && n < |rounds| && |rounds[n].audio| % 2 == 0
    requires p.session.state == Paused <==> LastIsPause(false, Asked(rounds[..n]))
    ensures var (next, more) := Listen(rig, p, rounds[n]);
            && (more ==> !Stops(rounds[n]) && (!next.failed || p.failed) && (UnderLimit(p) ==> UnderLimit(next)))
            && (!more && !Stops(rounds[n]) ==> next.failed || Full(next, rounds, n))
  {
    hide Drain;
    ObeyKeeps(p.session, rounds[n].commands, rounds[n].abandoned);
    ObeyDoesAsAsked(p.session, rounds[n].commands, rounds[n].abandoned);
    OneMoreRound(rounds, n);
    hide Obey, Spoken, Withheld, LastIsPause, Asked, Quiet;
  }

  /** Where the loop ended, and why: a round stopped it, which had nothing else to stop it, or
      there was none left, or the writer or the limit did. */
  ghost predicate EndsAt(end: Progress, rounds: seq<Round>, k: nat, stopped: bool) {
    && Heeds(end, rounds, k) && Capturing(end.session)
    && (if stopped then k < |rounds| && Stops(rounds[k]) && UnderLimit(end)
        else k == |rounds| || end.failed || (k > 0 && Full(end, rounds, k - 1)))
    && (end.session.state == Paused <==>
          LastIsPause(false, Asked(rounds[..k]) + (if stopped then BeforeFinish(rounds[k].commands) else [])))
  }

  lemma {:induction false} CaptureHeeds(rig: Rig, p: Progress, rounds: seq<Round>, n: nat)
    returns (k: nat, stopped: bool)
    requires Capturing(p.session) && Stereo(rounds) && Heeds(p, rounds, n) && UnderLimit(p)
    requires p.session.state == Paused <==> LastIsPause(false, Asked(rounds[..n]))
    ensures n <= k && EndsAt(Capture(rig, p, rounds[n..]), rounds, k, stopped)
    decreases |rounds| - n
  {
    hide Listen, LastIsPause, Asked, Spoken, Withheld, Full;
    assert Asked(rounds[..n]) + [] == Asked(rounds[..n]);
    if n == |rounds| {
      k, stopped := n, false;
    } else {
      assert rounds[n..][0] == rounds[n] && rounds[n..][1..] == rounds[n + 1..];
      ListenHeeds(rig, p, rounds, n);
      ListenEnds(rig, p, rounds, n);
      var (next, more) := Listen(rig, p, rounds[n]);
      if more {
        k, stopped := CaptureHeeds(rig, next, rounds, n + 1);
      } else {
        stopped := Stops(rounds[n]);
        k := if stopped then n else n + 1;
        assert Asked(rounds[..k]) + [] == Asked(rounds[..k]);
      }
    }
  }

  /** The loop hears the first `n` rounds, up to the first that stops it, or that the writer
      refuses, or in which the limit is reached. Of those it hands the writer the audio of the
      rounds that are not quiet, in order, and counts the frames of the quiet ones as dropped;
      and what is left in the queues is handed over unless a pause was asked for last. */
  lemma PausedIsWithheld(rig: Rig, limit: nat, rounds: seq<Round>, tail: seq<Sample>) returns (n: nat, stopped: bool)
    requires Stereo(rounds)
    ensures var p := Capture(rig, Start(limit), rounds);
            && n <= |rounds| && (forall i :: 0 <= i < n ==> !Stops(rounds[i]))
            && p.fed == Spoken(rounds[..n]) && p.dropped == Withheld(rounds[..n])
            && (if stopped then
                  n < |rounds| && Stops(rounds[n]) && !p.failed
                  && (p.session.recorded < p.session.limit || p.events == [])
                else n == |rounds| || p.failed || (n > 0 && Full(p, rounds, n - 1)))
            && var asked := Asked(rounds[..n]) + (if stopped then BeforeFinish(rounds[n].commands) else []);
               Wrap(rig, p, tail).fed == Spoken(rounds[..n]) + (if LastIsPause(false, asked) then [] else tail)
  {
    assert rounds[..0] == [] && rounds[0..] == rounds;
    n, stopped := CaptureHeeds(rig, Start(limit), rounds, 0);
    hide Capture, Drain, Asked, BeforeFinish, LastIsPause, Spoken, Withheld;
    var p := Capture(rig, Start(limit), rounds);
    assert p.fed + [] == p.fed;
  }

  // ------------------------------------------------------------ what the writer was handed

  /** A capture fails exactly when the writer refuses a round's audio; it then holds what it
      makes of that audio behind all it was handed before. */
  lemma FailsIffRefused(rig: Rig, limit: nat, rounds: seq<Round>) returns (cut: nat)
    requires PerSegment(rig) > 0 && Stereo(rounds)
    ensures var p := Capture(rig, Start(limit), rounds);
            && cut <= |p.fed| && (p.failed <==> p.writer.answer.Err?)
            && (p.failed ==>
                  p.writer == Drain(rig, TapeOf(rig, Frames(p.fed[..cut])), Rest(p.fed[..cut]) + p.fed[cut..]))
  {
    hide *;
    StartIsAccounted(rig, limit);
    cut := CaptureRefuses(rig, Start(limit), rounds);
  }

  lemma {:induction false} CaptureRefuses(rig: Rig, p: Progress, rounds: seq<Round>) returns (cut: nat)
    requires PerSegment(rig) > 0 && Accounted(rig, p) && UnderLimit(p) && Stereo(rounds)
    ensures var end := Capture(rig, p, rounds);
            && cut <= |end.fed| && (end.failed <==> end.writer.answer.Err?)
            && (end.failed ==>
                  end.writer == Drain(rig, TapeOf(rig, Frames(end.fed[..cut])), Rest(end.fed[..cut]) + end.fed[cut..]))
    decreases |rounds|
  {
    hide Listen, PerSegment, TapeOf, Rest, Frames, Drain;
    cut := |p.fed|;
    if rounds != [] {
      ListenKeeps(rig, p, rounds[0]);
      ListenRefuses(rig, p, rounds[0]);
      var (next, more) := Listen(rig, p, rounds[0]);
      if more {
        cut := CaptureRefuses(rig, next, rounds[1..]);
      }
    }
  }

  lemma ListenRefuses(rig: Rig, p: Progress, round: Round)
    requires PerSegment(rig) > 0 && Accounted(rig, p) && !p.failed
    ensures var (next, _) := Listen(rig, p, round);
            && (next.failed <==> next.writer.answer.Err?) && |p.fed| <= |next.fed|
            && (next.failed ==>
                  && next.fed[..|p.fed|] == p.fed
                  && next.writer == Drain(rig, TapeOf(rig, Frames(p.fed)), Rest(p.fed) + next.fed[|p.fed|..]))
  {
    hide Drain, TapeOf, Rest, Frames, PerSegment, Obey;
    assert (p.fed + round.audio)[..|p.fed|] == p.fed && (p.fed + round.audio)[|p.fed|..] == round.audio;
  }

  /** The tail is written even after a failure, unless the session is paused; the recording
      fails if that is refused too, and otherwise the writer is the formula of all it was handed. */
  lemma TailIsWritten(rig: Rig, limit: nat, rounds: seq<Round>, tail: seq<Sample>)
    requires PerSegment(rig) > 0 && Stereo(rounds)
    ensures var p := Capture(rig, Start(limit), rounds);
            var whole := Wrap(rig, p, tail);
            var written := Drain(rig, p.writer.tape, p.writer.rest + tail);
            && (if p.session.state == Paused || tail == [] then whole.writer == p.writer && whole.failed == p.failed
                else whole.writer == written && (whole.failed <==> p.failed || written.answer.Err?))
            && (!whole.failed ==>
                  whole.writer.tape == TapeOf(rig, Frames(whole.fed)) && whole.writer.rest == Rest(whole.fed))
  {
    hide Capture, Drain, TapeOf, Rest, Frames, PerSegment;
    StartIsAccounted(rig, limit);
    CaptureKeeps(rig, Start(limit), rounds);
    var p := Capture(rig, Start(limit), rounds);
    WrittenKeeps(rig, p.fed, tail);
  }

  // ------------------------------------------------------------ the order of events

  /** One thing that happens to a session. */
  datatype Happening = WentQuiet | WentOn | Heard(ms: nat)

  function Live(s: Rules, happenings: seq<Happening>): seq<(nat, BudgetEvent)>
    decreases |happenings|
  {
    if happenings == [] then []
    else
      match happenings[0]
      case WentQuiet =>
        var moved := Move(s, Paused);
        Live(if moved.Some? then moved.value else s, happenings[1..])
      case WentOn =>
        var moved := Resume(s);
        Live(if moved.Some? then moved.value else s, happenings[1..])
      case Heard(ms) =>
        var (t, event) := Count(s, ms);
        (if s.state == Recording then [(t.recorded, event)] else []) + Live(t, happenings[1..])
  }

  predicate NearLimit(limit: nat, recorded: nat) {
    recorded + WARN_BEFORE >= limit
  }

  /** What one event in front of the others changes about them. */
  lemma LaterEvent(s: Rules, ms: nat, later: seq<(nat, BudgetEvent)>, i: nat)
    requires s.state == Recording && 0 < i <= |later|
    requires var t := Count(s, ms).0;
             && t.recorded <= later[i - 1].0
             && (forall j :: 0 <= j < i - 1 ==> later[j].0 <= later[i - 1].0)
             && (later[i - 1].1 == Stop <==> later[i - 1].0 >= t.limit)
             && (later[i - 1].1 == Warn <==>
                   && later[i - 1].0 < t.limit && NearLimit(t.limit, later[i - 1].0) && !t.warned
                   && forall j :: 0 <= j < i - 1 ==> !NearLimit(t.limit, later[j].0))
    ensures var kept := [(Count(s, ms).0.recorded, Count(s, ms).1)] + later;
            && s.recorded <= kept[i].0
            && (forall j :: 0 <= j < i ==> kept[j].0 <= kept[i].0)
            && (kept[i].1 == Stop <==> kept[i].0 >= s.limit)
            && (kept[i].1 == Warn <==>
                  && kept[i].0 < s.limit && NearLimit(s.limit, kept[i].0) && !s.warned
                  && forall j :: 0 <= j < i ==> !NearLimit(s.limit, kept[j].0))
  {
    var kept := [(Count(s, ms).0.recorded, Count(s, ms).1)] + later;
    assert kept[i] == later[i - 1];
    assert forall j :: 0 <= j < i - 1 ==> later[j] == kept[j + 1];
    assert forall j :: 0 < j < i ==> kept[j] == later[j - 1];
    assert (forall j :: 0 <= j < i ==> !NearLimit(s.limit, kept[j].0))
      <==> !NearLimit(s.limit, kept[0].0) && forall j :: 0 <= j < i - 1 ==> !NearLimit(s.limit, later[j].0);
  }

  /** Of the events about kept audio, those at or past the limit are exactly the stops, and
      the warning is exactly the first one within five minutes of it. So the events read
      Continue..., at most one Warn, Continue..., Stop... */
  lemma {:induction false} EventsFollowTheLimit(s: Rules, happenings: seq<Happening>, i: nat)
    requires i < |Live(s, happenings)|
    ensures var kept := Live(s, happenings);
            && s.recorded <= kept[i].0
            && (forall j :: 0 <= j < i ==> kept[j].0 <= kept[i].0)
            && (kept[i].1 == Stop <==> kept[i].0 >= s.limit)
            && (kept[i].1 == Warn <==>
                  && kept[i].0 < s.limit && NearLimit(s.limit, kept[i].0) && !s.warned
                  && forall j :: 0 <= j < i ==> !NearLimit(s.limit, kept[j].0))
    decreases |happenings|
  {
    var rest := happenings[1..];
    match happenings[0]
    case WentQuiet =>
      var moved := Move(s, Paused);
      EventsFollowTheLimit(if moved.Some? then moved.value else s, rest, i);
    case WentOn =>
      var moved := Resume(s);
      EventsFollowTheLimit(if moved.Some? then moved.value else s, rest, i);
    case Heard(ms) =>
      var (t, event) := Count(s, ms);
      if s.state != Recording {
        assert Live(s, happenings) == Live(t, rest);
        EventsFollowTheLimit(t, rest, i);
      } else if i > 0 {
        EventsFollowTheLimit(t, rest, i - 1);
        LaterEvent(s, ms, Live(t, rest), i);
        assert Live(s, happenings) == [(t.recorded, event)] + Live(t, rest);
      }
  }

  /** A session that has just begun stops at its limit, or at four hours if that is less, and
      warns once, at the first event within five minutes of it. */
  lemma BudgetFromTheStart(limit: nat, happenings: seq<Happening>, i: nat)
    requires i < |Live(Begin(limit), happenings)|
    ensures var kept := Live(Begin(limit), happenings);
            var most := if limit <= 14_400_000 then limit else 14_400_000;
            && (kept[i].1 == Stop <==> kept[i].0 >= most)
            && (kept[i].1 == Warn <==>
                  && kept[i].0 < most && kept[i].0 + 300_000 >= most
                  && forall j :: 0 <= j < i ==> kept[j].0 + 300_000 < most)
  {
    EventsFollowTheLimit(Begin(limit), happenings, i);
  }

  // ------------------------------------------------------------ what a session refuses

  /** A pause is taken only while recording, a resumption only while paused, an end only in
      one of the two; each changes the state and nothing else. */
  lemma TakenOnlyWhen(s: Rules)
    ensures Move(s, Paused).Some? <==> s.state == Recording
    ensures Resume(s).Some? <==> s.state == Paused
    ensures Move(s, Uploading).Some? <==> s.state in {Recording, Paused}
    ensures Move(s, Processing).Some? <==> s.state == Uploading
    ensures Move(s, Idle).Some? <==> s.state in {Uploading, Processing}
    ensures Move(s, Recording).Some? <==> s.state in {Idle, Paused}
    ensures forall to :: Move(s, to).Some? ==> Move(s, to).value == s.(state := to)
    ensures Resume(s).Some? ==> Resume(s).value == s.(state := Recording)
  {
  }
}
