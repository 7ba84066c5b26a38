/** Two mono captures into one stereo stream: queues, the start skew, silence for a side that
    stopped, and the flush at the end. */
module Mixer {
  import opened Prelude
  import opened Recording
  import opened Tape

  // ------------------------------------------------------------ interleaving

  function Interleave(left: seq<Sample>, right: seq<Sample>): seq<Sample>
    requires |left| == |right|
  {
    if left == [] then []
    else Interleave(left[..|left| - 1], right[..|right| - 1]) + [left[|left| - 1], right[|right| - 1]]
  }

  /** A channel of an interleaved stream: 0 is the microphone, 1 the system. */
  function Channel(stereo: seq<Sample>, c: nat): seq<Sample>
    requires |stereo| % 2 == 0 && c < 2
  {
    seq(|stereo| / 2, i requires 0 <= i < |stereo| / 2 => stereo[2 * i + c])
  }

  /** Both channels come back out as they went in. */
  lemma {:induction false} ChannelsComeBack(left: seq<Sample>, right: seq<Sample>)
    requires |left| == |right|
    ensures |Interleave(left, right)| == 2 * |left|
    ensures Channel(Interleave(left, right), 0) == left && Channel(Interleave(left, right), 1) == right
    decreases |left|
  {
    if left != [] {
      var l, r := left[..|left| - 1], right[..|right| - 1];
      ChannelsComeBack(l, r);
      var before := Interleave(l, r);
      forall i | 0 <= i < |left|
        ensures Interleave(left, right)[2 * i] == left[i] && Interleave(left, right)[2 * i + 1] == right[i]
      {
        if i < |l| {
          assert Channel(before, 0)[i] == before[2 * i] && Channel(before, 1)[i] == before[2 * i + 1];
        }
      }
    }
  }

  // ------------------------------------------------------------ the mixer

  /** The mixer's two queues. */
  datatype Queues = Queues(left: seq<Sample>, right: seq<Sample>)

  function Imbalance(q: Queues): int {
    |q.left| - |q.right|
  }

  class StereoMixer {
    var left: seq<Sample>
    var right: seq<Sample>

    function View(): Queues
      reads this
    {
      Queues(left, right)
    }

    constructor ()
      ensures View() == Queues([], [])
    {
      left, right := [], [];
    }

    method PushLeft(samples: seq<Sample>)
      modifies this`left
      ensures left == old(left) + samples
    {
      left := left + samples;
    }

    method PushRight(samples: seq<Sample>)
      modifies this`right
      ensures right == old(right) + samples
    {
      right := right + samples;
    }

    /** One sample at a time, last first. */
    method PushFrontLeft(samples: seq<Sample>)
      modifies this`left
      ensures left == samples + old(left)
    {
      var i := |samples|;
      while i > 0
        invariant 0 <= i <= |samples| && left == samples[i..] + old(left)
      {
        i := i - 1;
        left := [samples[i]] + left;
      }
    }

    method PushFrontRight(samples: seq<Sample>)
      modifies this`right
      ensures right == samples + old(right)
    {
      var i := |samples|;
      while i > 0
        invariant 0 <= i <= |samples| && right == samples[i..] + old(right)
      {
        i := i - 1;
        right := [samples[i]] + right;
      }
    }

    /** The common prefix of the queues, interleaved; the surplus stays. */
    method DrainInto(stereo: seq<Sample>) returns (r: seq<Sample>)
      modifies this
      ensures var n := Min(|old(left)|, |old(right)|);
              && left == old(left)[n..] && right == old(right)[n..]
              && r == stereo + Interleave(old(left)[..n], old(right)[..n])
    {
      var frames := Min(|left|, |right|);
      r := stereo;
      var i := 0;
      while i < frames
        invariant 0 <= i <= frames
        invariant left == old(left)[i..] && right == old(right)[i..]
        invariant r == stereo + Interleave(old(left)[..i], old(right)[..i])
      {
        var l, rt := left[0], right[0];
        left, right := left[1..], right[1..];
        assert old(left)[..i + 1][..i] == old(left)[..i] && old(right)[..i + 1][..i] == old(right)[..i];
        r := r + [l];
        r := r + [rt];
        i := i + 1;
      }
    }

    /** All of both queues, interleaved, with silence behind the shorter. */
    method FlushInto(stereo: seq<Sample>) returns (r: seq<Sample>)
      modifies this
      ensures View() == Queues([], [])
      ensures var n := Max(|old(left)|, |old(right)|);
              r == stereo + Interleave(PadTo(old(left), n), PadTo(old(right), n))
    {
      var frames := Max(|left|, |right|);
      ghost var wholeLeft, wholeRight := PadTo(left, frames), PadTo(right, frames);
      r := stereo;
      var i := 0;
      while i < frames
        invariant 0 <= i <= frames
        invariant left == Behind(old(left), i) && right == Behind(old(right), i)
        invariant r == stereo + Interleave(wholeLeft[..i], wholeRight[..i])
      {
        NextPadded(old(left), frames, i);
        NextPadded(old(right), frames, i);
        var l, rt := Front(left), Front(right);
        left, right := Behind(left, 1), Behind(right, 1);
        InterleaveNext(wholeLeft, wholeRight, i);
        r := r + [l];
        r := r + [rt];
        i := i + 1;
      }
      assert wholeLeft[..frames] == wholeLeft && wholeRight[..frames] == wholeRight;
    }
  }

  /** The next sample, or silence from an empty queue. */
  function Front(s: seq<Sample>): Sample {
    if s == [] then SILENCE else s[0]
  }

  function Behind(s: seq<Sample>, n: nat): seq<Sample> {
    if n <= |s| then s[n..] else []
  }

  lemma NextPadded(s: seq<Sample>, n: nat, i: nat)
    requires |s| <= n && i < n
    ensures Front(Behind(s, i)) == PadTo(s, n)[i]
    ensures Behind(Behind(s, i), 1) == Behind(s, i + 1)
  {
  }

  lemma InterleaveNext(left: seq<Sample>, right: seq<Sample>, i: nat)
    requires |left| == |right| && i < |left|
    ensures Interleave(left[..i + 1], right[..i + 1]) == Interleave(left[..i], right[..i]) + [left[i], right[i]]
  {
    assert left[..i + 1][..i] == left[..i] && right[..i + 1][..i] == right[..i];
  }

  function PadTo(s: seq<Sample>, n: nat): (r: seq<Sample>)
    requires |s| <= n
    ensures |r| == n
  {
    s + Silence(n - |s|)
  }

  // ------------------------------------------------------------ the recorder, as a value

  /** A reading of the performance counter, in units of 100 ns. */
  type Ticks = t: nat | t < 0x1_0000_0000_0000_0000

  datatype Endpoint = Microphone | SystemLoopback

  datatype Chunk = Chunk(samples: seq<Sample>, start: Option<Ticks>)

  /** What was waiting in one channel, and whether its sender is gone. */
  datatype Inbox = Inbox(chunks: seq<Chunk>, gone: bool)

  datatype Side = Side(recorded: bool, open: bool, start: Option<Ticks>)

  datatype Desk = Desk(
    queues: Queues, mic: Side, system: Side, skew: Option<int>, stalled: seq<Endpoint>, worst: int)

  function Samples(chunks: seq<Chunk>): seq<Sample> {
    if chunks == [] then [] else chunks[0].samples + Samples(chunks[1..])
  }

  /** The first start any chunk carried. */
  function FirstStart(known: Option<Ticks>, chunks: seq<Chunk>): Option<Ticks>
    decreases |chunks|
  {
    if known.Some? || chunks == [] then known else FirstStart(chunks[0].start, chunks[1..])
  }

  function Live(side: Side): bool {
    side.recorded && side.open
  }

  function Received(side: Side, inbox: Inbox): Side {
    Side(side.recorded, side.open && !inbox.gone, FirstStart(side.start, inbox.chunks))
  }

  function Receive(d: Desk, mic: Inbox, system: Inbox): Desk {
    var newly :=
      (if mic.gone && Live(d.mic) then [Microphone] else [])
      + (if system.gone && Live(d.system) then [SystemLoopback] else []);
    d.(queues := Queues(d.queues.left + Samples(mic.chunks), d.queues.right + Samples(system.chunks)),
       mic := Received(d.mic, mic), system := Received(d.system, system), stalled := d.stalled + newly)
  }

  /** Division that truncates toward zero. */
  function Truncated(a: int, b: int): int
    requires b > 0
  {
    if a >= 0 then a / b else -(-a / b)
  }

  function SkewFrames(mic: Ticks, system: Ticks): int {
    var frames := Truncated((mic - system) * SAMPLE_RATE, 10_000_000);
    if -0x8000_0000_0000_0000 <= frames < 0x8000_0000_0000_0000 then frames else 0
  }

  function CorrectSkew(d: Desk): Desk {
    if d.skew.Some? || !(d.mic.recorded && d.system.recorded) then d
    else if d.mic.start.None? || d.system.start.None? then d
    else
      var frames := SkewFrames(d.mic.start.value, d.system.start.value);
      var left := if frames > 0 then Silence(frames) + d.queues.left else d.queues.left;
      var right := if frames < 0 then Silence(-frames) + d.queues.right else d.queues.right;
      d.(queues := Queues(left, right), skew := Some(frames))
  }

  /** Silence for a stopped side only, and only as much as it lacks; at most one of the two. */
  function SilenceNeeded(imbalance: int, leftLive: bool, rightLive: bool): (nat, nat) {
    if leftLive && rightLive then (0, 0)
    else if imbalance > 0 && !rightLive then (0, imbalance)
    else if imbalance < 0 && !leftLive then (-imbalance, 0)
    else (0, 0)
  }

  function PadStalled(d: Desk): Desk {
    var (left, right) := SilenceNeeded(Imbalance(d.queues), Live(d.mic), Live(d.system));
    d.(queues := Queues(d.queues.left + Silence(left), d.queues.right + Silence(right)))
  }

  function Abs(x: int): int {
    if x < 0 then -x else x
  }

  function Observe(d: Desk): Desk {
    var settled := d.skew.Some? || !(d.mic.recorded && d.system.recorded);
    if settled && d.mic.open && d.system.open && Abs(Imbalance(d.queues)) > Abs(d.worst)
    then d.(worst := Imbalance(d.queues))
    else d
  }

  /** Everything a poll does before it drains. */
  function Ready(d: Desk, mic: Inbox, system: Inbox): Desk {
    Observe(PadStalled(CorrectSkew(Receive(d, mic, system))))
  }

  /** A poll, and what each channel emits. */
  function Poll(d: Desk, mic: Inbox, system: Inbox): (Desk, Queues) {
    var r := Ready(d, mic, system);
    var n := Min(|r.queues.left|, |r.queues.right|);
    (r.(queues := Queues(r.queues.left[n..], r.queues.right[n..])),
     Queues(r.queues.left[..n], r.queues.right[..n]))
  }

  // ------------------------------------------------------------ the recorder, as it runs

  class Recorder {
    const mixer: StereoMixer
    const micRecorded: bool
    const systemRecorded: bool
    var micOpen: bool
    var systemOpen: bool
    var micStart: Option<Ticks>
    var systemStart: Option<Ticks>
    var appliedSkew: Option<int>
    var worstImbalance: int
    var stalled: seq<Endpoint>

    function View(): Desk
      reads this, mixer
    {
      Desk(mixer.View(), Side(micRecorded, micOpen, micStart), Side(systemRecorded, systemOpen, systemStart),
           appliedSkew, stalled, worstImbalance)
    }

    constructor (withoutMicrophone: bool, withoutSystem: bool)
      ensures View() == Opened(withoutMicrophone, withoutSystem) && fresh(mixer)
    {
      mixer := new StereoMixer();
      micRecorded, systemRecorded := !withoutMicrophone, !withoutSystem;
      micOpen, systemOpen := !withoutMicrophone, !withoutSystem;
      micStart, systemStart, appliedSkew, worstImbalance, stalled := None, None, None, 0, [];
    }

    method DrainInboxes(mic: Inbox, system: Inbox)
      modifies this, mixer
      ensures View() == Receive(old(View()), mic, system)
    {
      var i := 0;
      while i < |mic.chunks|
        invariant 0 <= i <= |mic.chunks|
        invariant micOpen == old(micOpen) && systemOpen == old(systemOpen) && systemStart == old(systemStart)
        invariant appliedSkew == old(appliedSkew) && stalled == old(stalled) && worstImbalance == old(worstImbalance)
        invariant mixer.right == old(mixer.right)
        invariant mixer.left + Samples(mic.chunks[i..]) == old(mixer.left) + Samples(mic.chunks)
        invariant FirstStart(micStart, mic.chunks[i..]) == FirstStart(old(micStart), mic.chunks)
      {
        var chunk := mic.chunks[i];
        assert mic.chunks[i..][0] == chunk && mic.chunks[i..][1..] == mic.chunks[i + 1..];
        assert mixer.left + Samples(mic.chunks[i..])
            == mixer.left + chunk.samples + Samples(mic.chunks[i + 1..]);
        micStart := if micStart.Some? then micStart else chunk.start;
        mixer.PushLeft(chunk.samples);
        i := i + 1;
      }
      assert mic.chunks[i..] == [];
      if mic.gone {
        if micOpen && micRecorded {
          stalled := stalled + [Microphone];
        }
        micOpen := false;
      }
      DrainSystem(system);
    }

    method DrainSystem(system: Inbox)
      modifies this, mixer
      ensures View() == Receive(old(View()), Inbox([], false), system)
    {
      var i := 0;
      while i < |system.chunks|
        invariant 0 <= i <= |system.chunks|
        invariant micOpen == old(micOpen) && systemOpen == old(systemOpen) && micStart == old(micStart)
        invariant appliedSkew == old(appliedSkew) && stalled == old(stalled) && worstImbalance == old(worstImbalance)
        invariant mixer.left == old(mixer.left)
        invariant mixer.right + Samples(system.chunks[i..]) == old(mixer.right) + Samples(system.chunks)
        invariant FirstStart(systemStart, system.chunks[i..]) == FirstStart(old(systemStart), system.chunks)
      {
        var chunk := system.chunks[i];
        assert system.chunks[i..][0] == chunk && system.chunks[i..][1..] == system.chunks[i + 1..];
        assert mixer.right + Samples(system.chunks[i..])
            == mixer.right + chunk.samples + Samples(system.chunks[i + 1..]);
        systemStart := if systemStart.Some? then systemStart else chunk.start;
        mixer.PushRight(chunk.samples);
        i := i + 1;
      }
      assert system.chunks[i..] == [];
      if system.gone {
        if systemOpen && systemRecorded {
          stalled := stalled + [SystemLoopback];
        }
        systemOpen := false;
      }
    }

    method LineUp()
      modifies this`appliedSkew, mixer
      ensures View() == CorrectSkew(old(View()))
    {
      if appliedSkew.Some? || !(micRecorded && systemRecorded) {
        return;
      }
      if micStart.None? || systemStart.None? {
        return;
      }
      var frames := SkewFrames(micStart.value, systemStart.value);
      if frames > 0 {
        mixer.PushFrontLeft(Silence(frames));
      } else if frames < 0 {
        mixer.PushFrontRight(Silence(-frames));
      }
      appliedSkew := Some(frames);
    }

    method PadStalledSides()
      modifies mixer
      ensures View() == PadStalled(old(View()))
    {
      var (left, right) := SilenceNeeded(Imbalance(mixer.View()), micRecorded && micOpen, systemRecorded && systemOpen);
      if left > 0 {
        mixer.PushLeft(Silence(left));
      }
      if right > 0 {
        mixer.PushRight(Silence(right));
      }
    }

    method ObserveImbalance()
      modifies this`worstImbalance
      ensures View() == Observe(old(View()))
    {
      var settled := appliedSkew.Some? || !(micRecorded && systemRecorded);
      if settled && micOpen && systemOpen && Abs(Imbalance(mixer.View())) > Abs(worstImbalance) {
        worstImbalance := Imbalance(mixer.View());
      }
    }

    /** The five steps of `Poll` in order; `frames` is how far the output grew. */
    method PollDevices(mic: Inbox, system: Inbox, stereo: seq<Sample>) returns (r: seq<Sample>, frames: nat)
      modifies this, mixer
      ensures var (after, emitted) := Poll(old(View()), mic, system);
              && View() == after
              && r == stereo + Interleave(emitted.left, emitted.right)
              && frames == |emitted.left| == |emitted.right|
    {
      DrainInboxes(mic, system);
      LineUp();
      PadStalledSides();
      ObserveImbalance();
      ghost var ready := mixer.View();
      var before := |stereo|;
      r := mixer.DrainInto(stereo);
      ghost var n := Min(|ready.left|, |ready.right|);
      ChannelsComeBack(ready.left[..n], ready.right[..n]);
      frames := (|r| - before) / 2;
    }
  }

  function Opened(withoutMicrophone: bool, withoutSystem: bool): Desk {
    Desk(Queues([], []), Side(!withoutMicrophone, !withoutMicrophone, None),
         Side(!withoutSystem, !withoutSystem, None), None, [], 0)
  }

  // ------------------------------------------------------------ what a poll leaves and emits

  /** What a channel is given is its chunks one behind the other. */
  lemma {:induction false} SamplesInOrder(chunks: seq<Chunk>, c: Chunk)
    ensures Samples([]) == [] && Samples(chunks + [c]) == Samples(chunks) + c.samples
    decreases |chunks|
  {
    if chunks == [] {
      assert [c][1..] == [] && [] + [c] == [c];
      assert [] + c.samples == c.samples + [];
    } else {
      assert (chunks + [c])[1..] == chunks[1..] + [c];
      SamplesInOrder(chunks[1..], c);
      Regroup(chunks[0].samples, Samples(chunks[1..]), c.samples);
    }
  }

  /** Rounding toward zero costs less than one frame of alignment. */
  lemma SkewIsWithinAFrame(mic: Ticks, system: Ticks)
    ensures var delta := mic - system;
            var residual := delta - 625 * SkewFrames(mic, system);
            && -625 < residual < 625
            && (residual != 0 ==> (residual > 0 <==> delta > 0))
  {
    var delta := mic - system;
    SixTwentyFive(Abs(delta));
  }

  lemma SixTwentyFive(n: nat)
    ensures n * SAMPLE_RATE / 10_000_000 == n / 625
  {
  }

  /** Once a side has stopped, a poll leaves nothing waiting on a side that is still live; and
      when both have, nothing waits at all. */
  lemma LiveSideIsDrained(d: Desk, mic: Inbox, system: Inbox)
    ensures var after := Poll(d, mic, system).0;
            && (Live(after.mic) && !Live(after.system) ==> after.queues.left == [])
            && (!Live(after.mic) && Live(after.system) ==> after.queues.right == [])
            && (!Live(after.mic) && !Live(after.system) ==> after.queues == Queues([], []))
  {
  }

  /** While both sides are live a poll inserts nothing but the skew, so the surplus of one
      side waits for its counterpart. */
  lemma HealthyLeadIsLeftAlone(d: Desk, mic: Inbox, system: Inbox)
    requires Live(Received(d.mic, mic)) && Live(Received(d.system, system))
    ensures Ready(d, mic, system).queues == CorrectSkew(Receive(d, mic, system)).queues
    ensures var after := Poll(d, mic, system).0;
            after.queues.left == [] || after.queues.right == []
  {
    var r := CorrectSkew(Receive(d, mic, system));
    assert r.queues.left + Silence(0) == r.queues.left && r.queues.right + Silence(0) == r.queues.right;
  }

  // ------------------------------------------------------------ runs

  datatype Arrival = Arrival(mic: Inbox, system: Inbox)

  /** A recorder with everything either side was ever pushed, and ever emitted. */
  datatype Tally = Tally(desk: Desk, pushed: Queues, emitted: Queues)

  function Append(a: Queues, b: Queues): Queues {
    Queues(a.left + b.left, a.right + b.right)
  }

  function PollOnce(t: Tally, a: Arrival): Tally {
    var (desk, emitted) := Poll(t.desk, a.mic, a.system);
    Tally(desk, Append(t.pushed, Queues(Samples(a.mic.chunks), Samples(a.system.chunks))), Append(t.emitted, emitted))
  }

  function PollAll(t: Tally, arrivals: seq<Arrival>): Tally {
    if arrivals == [] then t else PollOnce(PollAll(t, arrivals[..|arrivals| - 1]), arrivals[|arrivals| - 1])
  }

  /** The last frames, the shorter side padded. */
  function FlushTally(t: Tally): Tally {
    var q := t.desk.queues;
    var n := Max(|q.left|, |q.right|);
    Tally(t.desk.(queues := Queues([], [])), t.pushed, Append(t.emitted, Queues(PadTo(q.left, n), PadTo(q.right, n))))
  }

  function Silent(withoutMicrophone: bool, withoutSystem: bool): Tally {
    Tally(Opened(withoutMicrophone, withoutSystem), Queues([], []), Queues([], []))
  }

  /** `stream` is `audio` in order, with nothing but silence put in between. */
  predicate Padding(audio: seq<Sample>, stream: seq<Sample>) {
    if stream == [] then audio == []
    else
      || (audio != [] && audio[0] == stream[0] && Padding(audio[1..], stream[1..]))
      || (stream[0] == SILENCE && Padding(audio, stream[1..]))
  }

  lemma {:induction false} PaddingAppend(audio: seq<Sample>, stream: seq<Sample>, more: seq<Sample>)
    requires Padding(audio, stream)
    ensures Padding(audio + more, stream + more)
    decreases |stream|
  {
    if stream == [] {
      assert audio + more == more && stream + more == more;
      PaddingItself(more);
    } else {
      assert (stream + more)[1..] == stream[1..] + more;
      if audio != [] && audio[0] == stream[0] && Padding(audio[1..], stream[1..]) {
        assert (audio + more)[1..] == audio[1..] + more;
        PaddingAppend(audio[1..], stream[1..], more);
      } else {
        PaddingAppend(audio, stream[1..], more);
      }
    }
  }

  lemma {:induction false} PaddingItself(s: seq<Sample>)
    ensures Padding(s, s)
  {
    if s != [] {
      PaddingItself(s[1..]);
    }
  }

  lemma {:induction false} PaddingInFront(audio: seq<Sample>, n: nat, stream: seq<Sample>)
    requires Padding(audio, stream)
    ensures Padding(audio, Silence(n) + stream)
  {
    if n == 0 {
      assert Silence(0) + stream == stream;
    } else {
      PaddingInFront(audio, n - 1, stream);
      var longer := Silence(n) + stream;
      assert longer[0] == SILENCE && longer[1..] == Silence(n - 1) + stream;
    }
  }

  /** What may stand for the end of a stream may stand there behind anything. */
  lemma {:induction false} PaddingBehind(audio: seq<Sample>, before: seq<Sample>, x: seq<Sample>, y: seq<Sample>)
    requires Padding(audio, before + x)
    requires forall a :: Padding(a, x) ==> Padding(a, y)
    ensures Padding(audio, before + y)
    decreases |before|
  {
    if before == [] {
      assert before + x == x && before + y == y;
    } else {
      assert (before + x)[1..] == before[1..] + x && (before + y)[1..] == before[1..] + y;
      if audio != [] && audio[0] == before[0] && Padding(audio[1..], before[1..] + x) {
        PaddingBehind(audio[1..], before[1..], x, y);
      } else {
        PaddingBehind(audio, before[1..], x, y);
      }
    }
  }

  /** Silence may go in anywhere. */
  lemma PaddingInsert(audio: seq<Sample>, before: seq<Sample>, n: nat, after: seq<Sample>)
    requires Padding(audio, before + after)
    ensures Padding(audio, before + Silence(n) + after)
  {
    hide Padding;
    forall a | Padding(a, after) ensures Padding(a, Silence(n) + after) {
      PaddingInFront(a, n, after);
    }
    PaddingBehind(audio, before, after, Silence(n) + after);
    Regroup(before, Silence(n), after);
  }

  /** Each channel so far: what it emitted and what it still holds. */
  function LeftStream(t: Tally): seq<Sample> {
    t.emitted.left + t.desk.queues.left
  }

  function RightStream(t: Tally): seq<Sample> {
    t.emitted.right + t.desk.queues.right
  }

  /** Kept by every poll: the channels are level, and each is its own audio in order with
      silence inserted. */
  ghost predicate Faithful(t: Tally) {
    && |t.emitted.left| == |t.emitted.right|
    && Padding(t.pushed.left, LeftStream(t)) && Padding(t.pushed.right, RightStream(t))
  }

  /** One channel through one poll: chunks arrive, silence goes in front of what waits and
      behind it, and the front of it leaves. */
  lemma ChannelKeeps(pushed: seq<Sample>, emitted: seq<Sample>, queue: seq<Sample>, more: seq<Sample>,
                     front: nat, back: nat, ready: seq<Sample>, n: nat)
    requires Padding(pushed, emitted + queue)
    requires ready == Silence(front) + (queue + more) + Silence(back) && n <= |ready|
    ensures Padding(pushed + more, (emitted + ready[..n]) + ready[n..])
  {
    hide Padding;
    PaddingAppend(pushed, emitted + queue, more);
    Regroup(emitted, queue, more);
    PaddingInsert(pushed + more, emitted, front, queue + more);
    PaddingAtEnd(pushed + more, emitted + Silence(front) + (queue + more), back);
    Regroup(emitted, Silence(front), queue + more);
    Regroup(emitted, Silence(front) + (queue + more), Silence(back));
    assert ready == ready[..n] + ready[n..];
    Regroup(emitted, ready[..n], ready[n..]);
  }

  lemma PaddingAtEnd(audio: seq<Sample>, stream: seq<Sample>, n: nat)
    requires Padding(audio, stream)
    ensures Padding(audio, stream + Silence(n))
  {
    assert stream + [] == stream;
    PaddingInsert(audio, stream, n, []);
    assert stream + Silence(n) + [] == stream + Silence(n);
  }

  lemma ReadyShape(d: Desk, mic: Inbox, system: Inbox)
    returns (fl: nat, bl: nat, fr: nat, br: nat)
    ensures var r := Ready(d, mic, system);
            && r.queues.left == Silence(fl) + (d.queues.left + Samples(mic.chunks)) + Silence(bl)
            && r.queues.right == Silence(fr) + (d.queues.right + Samples(system.chunks)) + Silence(br)
  {
    var received := Receive(d, mic, system);
    var corrected := CorrectSkew(received);
    fl := |corrected.queues.left| - |received.queues.left|;
    fr := |corrected.queues.right| - |received.queues.right|;
    assert corrected.queues.left == Silence(fl) + received.queues.left;
    assert corrected.queues.right == Silence(fr) + received.queues.right;
    var needed := SilenceNeeded(Imbalance(corrected.queues), Live(corrected.mic), Live(corrected.system));
    bl, br := needed.0, needed.1;
  }

  lemma PollKeeps(t: Tally, a: Arrival)
    requires Faithful(t)
    ensures Faithful(PollOnce(t, a))
  {
    hide Ready, Padding;
    var fl, bl, fr, br := ReadyShape(t.desk, a.mic, a.system);
    var r := Ready(t.desk, a.mic, a.system);
    var n := Min(|r.queues.left|, |r.queues.right|);
    ChannelKeeps(t.pushed.left, t.emitted.left, t.desk.queues.left, Samples(a.mic.chunks), fl, bl, r.queues.left, n);
    ChannelKeeps(t.pushed.right, t.emitted.right, t.desk.queues.right, Samples(a.system.chunks), fr, br, r.queues.right, n);
  }

  lemma {:induction false} EveryPollKeeps(t: Tally, arrivals: seq<Arrival>)
    requires Faithful(t)
    ensures Faithful(PollAll(t, arrivals))
  {
    hide Faithful, PollOnce;
    if arrivals != [] {
      EveryPollKeeps(t, arrivals[..|arrivals| - 1]);
      PollKeeps(PollAll(t, arrivals[..|arrivals| - 1]), arrivals[|arrivals| - 1]);
    }
  }

  /** Any run of polls and the final flush: both channels emit the same number of samples,
      and each is everything its side was pushed, in order, with only silence inserted. */
  lemma NothingLostOrReordered(withoutMicrophone: bool, withoutSystem: bool, arrivals: seq<Arrival>)
    ensures var t := FlushTally(PollAll(Silent(withoutMicrophone, withoutSystem), arrivals));
            && |t.emitted.left| == |t.emitted.right|
            && Padding(t.pushed.left, t.emitted.left) && Padding(t.pushed.right, t.emitted.right)
  {
    hide PollOnce;
    EveryPollKeeps(Silent(withoutMicrophone, withoutSystem), arrivals);
    var t := PollAll(Silent(withoutMicrophone, withoutSystem), arrivals);
    var q := t.desk.queues;
    var n := Max(|q.left|, |q.right|);
    FlushKeeps(t.pushed.left, t.emitted.left, q.left, n);
    FlushKeeps(t.pushed.right, t.emitted.right, q.right, n);
  }

  lemma FlushKeeps(pushed: seq<Sample>, emitted: seq<Sample>, queue: seq<Sample>, n: nat)
    requires Padding(pushed, emitted + queue) && |queue| <= n
    ensures Padding(pushed, emitted + PadTo(queue, n))
  {
    PaddingAtEnd(pushed, emitted + queue, n - |queue|);
    Regroup(emitted, queue, Silence(n - |queue|));
  }

  // ------------------------------------------------------------ a side that ends, told by the arrivals alone

  predicate MicEnded(arrivals: seq<Arrival>) {
    exists i :: 0 <= i < |arrivals| && arrivals[i].mic.gone
  }

  predicate SystemEnded(arrivals: seq<Arrival>) {
    exists i :: 0 <= i < |arrivals| && arrivals[i].system.gone
  }

  lemma OneMoreArrival(arrivals: seq<Arrival>)
    requires arrivals != []
    ensures var n := |arrivals| - 1;
            && (MicEnded(arrivals) <==> MicEnded(arrivals[..n]) || arrivals[n].mic.gone)
            && (SystemEnded(arrivals) <==> SystemEnded(arrivals[..n]) || arrivals[n].system.gone)
  {
    var n := |arrivals| - 1;
    if MicEnded(arrivals) && !arrivals[n].mic.gone {
      var i :| 0 <= i < |arrivals| && arrivals[i].mic.gone;
      assert arrivals[..n][i].mic.gone;
    }
    if SystemEnded(arrivals) && !arrivals[n].system.gone {
      var i :| 0 <= i < |arrivals| && arrivals[i].system.gone;
      assert arrivals[..n][i].system.gone;
    }
    if MicEnded(arrivals[..n]) {
      var i :| 0 <= i < n && arrivals[..n][i].mic.gone;
      assert arrivals[i].mic.gone;
    }
    if SystemEnded(arrivals[..n]) {
      var i :| 0 <= i < n && arrivals[..n][i].system.gone;
      assert arrivals[i].system.gone;
    }
  }

  lemma PollSides(t: Tally, a: Arrival)
    ensures var d, after := t.desk, PollOnce(t, a).desk;
            && after.mic.recorded == d.mic.recorded && after.mic.open == (d.mic.open && !a.mic.gone)
            && after.system.recorded == d.system.recorded && after.system.open == (d.system.open && !a.system.gone)
            && after.stalled == d.stalled + (if a.mic.gone && Live(d.mic) then [Microphone] else [])
                                          + (if a.system.gone && Live(d.system) then [SystemLoopback] else [])
  {
    StreamsAreReady(t, a);
    var d := t.desk;
    assert d.stalled + ((if a.mic.gone && Live(d.mic) then [Microphone] else [])
                        + (if a.system.gone && Live(d.system) then [SystemLoopback] else []))
      == d.stalled + (if a.mic.gone && Live(d.mic) then [Microphone] else [])
                   + (if a.system.gone && Live(d.system) then [SystemLoopback] else []);
  }

  /** A side lives until its first arrival that ends it, and is reported stalled exactly then. */
  lemma {:induction false} LivesUntilItEnds(withoutMicrophone: bool, withoutSystem: bool, arrivals: seq<Arrival>)
    ensures var d := PollAll(Silent(withoutMicrophone, withoutSystem), arrivals).desk;
            && (Live(d.mic) <==> !withoutMicrophone && !MicEnded(arrivals))
            && (Live(d.system) <==> !withoutSystem && !SystemEnded(arrivals))
            && d.mic.recorded == !withoutMicrophone && d.system.recorded == !withoutSystem
            && (d.mic.open ==> d.mic.recorded) && (d.system.open ==> d.system.recorded)
            && (arrivals != [] ==>
                  var front, last := arrivals[..|arrivals| - 1], arrivals[|arrivals| - 1];
                  d.stalled == PollAll(Silent(withoutMicrophone, withoutSystem), front).desk.stalled
                               + (if !withoutMicrophone && last.mic.gone && !MicEnded(front) then [Microphone] else [])
                               + (if !withoutSystem && last.system.gone && !SystemEnded(front) then [SystemLoopback] else []))
  {
    if arrivals != [] {
      hide PollOnce, MicEnded, SystemEnded;
      var front, last := arrivals[..|arrivals| - 1], arrivals[|arrivals| - 1];
      LivesUntilItEnds(withoutMicrophone, withoutSystem, front);
      OneMoreArrival(arrivals);
      PollSides(PollAll(Silent(withoutMicrophone, withoutSystem), front), last);
    }
  }

  /** After any polls: once one side is not recorded or has ended and the other has not, the
      other's queue is empty and everything it was ever given has been emitted, with only
      silence added; once both have, nothing waits on either. */
  lemma OneEndIsNoEnd(withoutMicrophone: bool, withoutSystem: bool, arrivals: seq<Arrival>)
    requires arrivals != []
    ensures var t := PollAll(Silent(withoutMicrophone, withoutSystem), arrivals);
            var noMic, noSystem := withoutMicrophone || MicEnded(arrivals), withoutSystem || SystemEnded(arrivals);
            && (noMic ==> t.desk.queues.right == [] && Padding(t.pushed.right, t.emitted.right))
            && (noSystem ==> t.desk.queues.left == [] && Padding(t.pushed.left, t.emitted.left))
            && (noMic && noSystem ==> t.desk.queues == Queues([], []))
  {
    var n := |arrivals| - 1;
    var before := PollAll(Silent(withoutMicrophone, withoutSystem), arrivals[..n]);
    var t := PollOnce(before, arrivals[n]);
    hide PollOnce, Padding, MicEnded, SystemEnded;
    LivesUntilItEnds(withoutMicrophone, withoutSystem, arrivals);
    SilentIsFaithful(withoutMicrophone, withoutSystem);
    EveryPollKeeps(Silent(withoutMicrophone, withoutSystem), arrivals);
    PolledDesk(before, arrivals[n]);
    LiveSideIsDrained(before.desk, arrivals[n].mic, arrivals[n].system);
    hide Poll;
    assert t.emitted.left + [] == t.emitted.left && t.emitted.right + [] == t.emitted.right;
  }

  lemma PolledDesk(t: Tally, a: Arrival)
    ensures PollOnce(t, a).desk == Poll(t.desk, a.mic, a.system).0
  {
  }

  lemma SilentIsFaithful(withoutMicrophone: bool, withoutSystem: bool)
    ensures Faithful(Silent(withoutMicrophone, withoutSystem))
  {
  }

  /** After this poll the queues can be compared: both sides deliver and were lined up. */
  predicate Compared(d: Desk) {
    d.skew.Some? && Live(d.mic) && Live(d.system)
  }

  predicate Leaves(d: Desk, imbalance: int) {
    Compared(d) && imbalance == |d.queues.left| - |d.queues.right|
  }

  function DeskAfter(withoutMicrophone: bool, withoutSystem: bool, arrivals: seq<Arrival>, k: nat): Desk
    requires k <= |arrivals|
  {
    PollAll(Silent(withoutMicrophone, withoutSystem), arrivals[..k]).desk
  }

  /** The worst imbalance is the greatest that any such poll has left, and nothing else is. */
  lemma {:induction false} WorstIsWorst(withoutMicrophone: bool, withoutSystem: bool, arrivals: seq<Arrival>)
    ensures var worst := DeskAfter(withoutMicrophone, withoutSystem, arrivals, |arrivals|).worst;
            && (forall k, i :: 0 < k <= |arrivals| && Leaves(DeskAfter(withoutMicrophone, withoutSystem, arrivals, k), i) ==>
                  -Abs(worst) <= i <= Abs(worst))
            && (worst == 0 || exists k :: 0 < k <= |arrivals|
                                          && Leaves(DeskAfter(withoutMicrophone, withoutSystem, arrivals, k), worst))
  {
    hide PollOnce, Leaves;
    assert arrivals[..|arrivals|] == arrivals;
    if arrivals != [] {
      var n := |arrivals| - 1;
      var front := arrivals[..n];
      WorstIsWorst(withoutMicrophone, withoutSystem, front);
      forall k | 0 <= k <= n
        ensures DeskAfter(withoutMicrophone, withoutSystem, arrivals, k)
             == DeskAfter(withoutMicrophone, withoutSystem, front, k)
      {
        assert arrivals[..k] == front[..k];
      }
      assert front[..n] == front;
      LivesUntilItEnds(withoutMicrophone, withoutSystem, front);
      OneMoreLeft(PollAll(Silent(withoutMicrophone, withoutSystem), front), arrivals[n]);
    } else {
      NothingCompared(withoutMicrophone, withoutSystem);
    }
  }

  lemma NothingCompared(withoutMicrophone: bool, withoutSystem: bool)
    ensures PollAll(Silent(withoutMicrophone, withoutSystem), []).desk.worst == 0
  {
  }

  lemma OneMoreLeft(t: Tally, a: Arrival)
    requires t.desk.mic.open ==> t.desk.mic.recorded
    requires t.desk.system.open ==> t.desk.system.recorded
    ensures var d, after := t.desk, PollOnce(t, a).desk;
            && (forall i :: Leaves(after, i) ==> -Abs(after.worst) <= i <= Abs(after.worst))
            && Abs(d.worst) <= Abs(after.worst) && (after.worst == d.worst || Leaves(after, after.worst))
  {
    PolledDesk(t, a);
    hide PollOnce;
  }

  /** The silence a channel has beyond its own audio, apart from the skew. */
  function Extra(stream: seq<Sample>, audio: seq<Sample>, skew: int): int {
    |stream| - |audio| - Max(skew, 0)
  }

  function SkewOf(d: Desk): int {
    if d.skew.Some? then d.skew.value else 0
  }

  /** While both sides are recorded and neither has ended, the skew is all that is ever added. */
  lemma {:induction false} NothingAddedBefore(arrivals: seq<Arrival>)
    requires !MicEnded(arrivals) && !SystemEnded(arrivals)
    ensures var t := PollAll(Silent(false, false), arrivals);
            && Extra(LeftStream(t), t.pushed.left, SkewOf(t.desk)) == 0
            && Extra(RightStream(t), t.pushed.right, -SkewOf(t.desk)) == 0
  {
    hide PollOnce, MicEnded, SystemEnded, Extra, SkewOf, LeftStream, RightStream;
    if arrivals == [] {
      NothingAddedYet();
    } else {
      var front, last := arrivals[..|arrivals| - 1], arrivals[|arrivals| - 1];
      OneMoreArrival(arrivals);
      NothingAddedBefore(front);
      LivesUntilItEnds(false, false, front);
      HealthyPollAdds(PollAll(Silent(false, false), front), last);
    }
  }

  lemma NothingAddedYet()
    ensures var t := Silent(false, false);
            && Extra(LeftStream(t), t.pushed.left, SkewOf(t.desk)) == 0
            && Extra(RightStream(t), t.pushed.right, -SkewOf(t.desk)) == 0
  {
  }

  lemma HealthyPollAdds(t: Tally, a: Arrival)
    requires Live(t.desk.mic) && Live(t.desk.system) && !a.mic.gone && !a.system.gone
    requires Extra(LeftStream(t), t.pushed.left, SkewOf(t.desk)) == 0
    requires Extra(RightStream(t), t.pushed.right, -SkewOf(t.desk)) == 0
    ensures var after := PollOnce(t, a);
            && Extra(LeftStream(after), after.pushed.left, SkewOf(after.desk)) == 0
            && Extra(RightStream(after), after.pushed.right, -SkewOf(after.desk)) == 0
  {
    StreamsAreReady(t, a);
    HealthyLeadIsLeftAlone(t.desk, a.mic, a.system);
    hide PollOnce;
    ReadySkew(t.desk, a.mic, a.system);
    hide Ready;
  }

  lemma ReadySkew(d: Desk, mic: Inbox, system: Inbox)
    ensures Ready(d, mic, system).skew == CorrectSkew(Receive(d, mic, system)).skew
  {
  }

  // ------------------------------------------------------------ where the skew goes in

  /** A poll moves samples from the queues to the output and adds what made them ready. */
  lemma StreamsAreReady(t: Tally, a: Arrival)
    ensures var r := Ready(t.desk, a.mic, a.system);
            var after := PollOnce(t, a);
            && LeftStream(after) == t.emitted.left + r.queues.left
            && RightStream(after) == t.emitted.right + r.queues.right
            && after.desk == r.(queues := after.desk.queues)
            && after.pushed == Append(t.pushed, Queues(Samples(a.mic.chunks), Samples(a.system.chunks)))
  {
    hide Ready;
    var r := Ready(t.desk, a.mic, a.system);
    var n := Min(|r.queues.left|, |r.queues.right|);
    assert r.queues.left == r.queues.left[..n] + r.queues.left[n..];
    assert r.queues.right == r.queues.right[..n] + r.queues.right[n..];
  }

  /** Once the skew is known, a poll only adds at the back. */
  lemma ReadyAddsBehind(d: Desk, mic: Inbox, system: Inbox) returns (l: nat, r: nat)
    requires d.skew.Some?
    ensures var ready := Ready(d, mic, system);
            && ready.skew == d.skew
            && ready.queues.left == d.queues.left + Samples(mic.chunks) + Silence(l)
            && ready.queues.right == d.queues.right + Samples(system.chunks) + Silence(r)
            && ready.mic == Received(d.mic, mic) && ready.system == Received(d.system, system)
  {
    var received := Receive(d, mic, system);
    var needed := SilenceNeeded(Imbalance(received.queues), Live(received.mic), Live(received.system));
    l, r := needed.0, needed.1;
  }

  /** The poll that learns the skew puts it in front. */
  lemma ReadyLinesUp(d: Desk, mic: Inbox, system: Inbox) returns (f: int, l: nat, r: nat)
    requires d.skew.None? && d.mic.recorded && d.system.recorded
    requires Received(d.mic, mic).start.Some? && Received(d.system, system).start.Some?
    ensures var ready := Ready(d, mic, system);
            && ready.skew == Some(f)
            && ready.queues.left == Silence(Max(f, 0)) + (d.queues.left + Samples(mic.chunks)) + Silence(l)
            && ready.queues.right == Silence(Max(-f, 0)) + (d.queues.right + Samples(system.chunks)) + Silence(r)
            && ready.mic == Received(d.mic, mic) && ready.system == Received(d.system, system)
  {
    var received := Receive(d, mic, system);
    var corrected := CorrectSkew(received);
    f := corrected.skew.value;
    assert corrected.queues.left == Silence(Max(f, 0)) + received.queues.left;
    assert corrected.queues.right == Silence(Max(-f, 0)) + received.queues.right;
    var needed := SilenceNeeded(Imbalance(corrected.queues), Live(corrected.mic), Live(corrected.system));
    l, r := needed.0, needed.1;
  }

  predicate AllSilence(s: seq<Sample>) {
    forall i :: 0 <= i < |s| ==> s[i] == SILENCE
  }

  /** Silence in front of `s` reads like silence behind it only if `s` is silence too. */
  lemma SilenceCommutes(f: nat, s: seq<Sample>)
    requires f > 0
    ensures Silence(f) + s == s + Silence(f) <==> AllSilence(s)
  {
    if Silence(f) + s == s + Silence(f) {
      forall i | 0 <= i < |s| ensures s[i] == SILENCE {
        SilentFrom(f, s, i);
      }
    }
  }

  lemma {:induction false} SilentFrom(f: nat, s: seq<Sample>, i: nat)
    requires f > 0 && Silence(f) + s == s + Silence(f) && i < |s|
    ensures s[i] == SILENCE
    decreases i
  {
    assert s[i] == (s + Silence(f))[i] == (Silence(f) + s)[i];
    if i >= f {
      SilentFrom(f, s, i - f);
    }
  }

  /** Silence put in behind `emitted` counts as put in front exactly when all of it is silence. */
  lemma InFrontIff(f: nat, emitted: seq<Sample>, rest: seq<Sample>, more: seq<Sample>)
    requires f > 0
    ensures Silence(f) + (emitted + rest) <= (emitted + (Silence(f) + rest)) + more <==> AllSilence(emitted)
  {
    SilenceCommutes(f, emitted);
    var wanted, stream := Silence(f) + (emitted + rest), (emitted + (Silence(f) + rest)) + more;
    var n := f + |emitted|;
    assert wanted == (Silence(f) + emitted) + rest && stream == (emitted + Silence(f)) + (rest + more);
    assert wanted[..n] == Silence(f) + emitted && stream[..n] == emitted + Silence(f);
    if wanted <= stream {
      assert wanted[..n] == stream[..n];
    }
  }

  /** The streams of the poll that settles the skew: what the late side emitted, the
      correction, what it held and received, and padding. */
  lemma SettlingPoll(t: Tally, a: Arrival) returns (f: int, l: nat, r: nat)
    requires t.desk.skew.None? && PollOnce(t, a).desk.skew.Some?
    ensures var after := PollOnce(t, a);
            && after.desk.skew == Some(f)
            && LeftStream(after)
               == (t.emitted.left + (Silence(Max(f, 0)) + (t.desk.queues.left + Samples(a.mic.chunks)))) + Silence(l)
            && RightStream(after)
               == (t.emitted.right + (Silence(Max(-f, 0)) + (t.desk.queues.right + Samples(a.system.chunks)))) + Silence(r)
  {
    StreamsAreReady(t, a);
    hide PollOnce, Samples;
    SettlesOnlyWhenKnown(t.desk, a.mic, a.system);
    hide LeftStream, RightStream, Received, Ready;
    f, l, r := ReadyLinesUp(t.desk, a.mic, a.system);
    Regroup(t.emitted.left, Silence(Max(f, 0)) + (t.desk.queues.left + Samples(a.mic.chunks)), Silence(l));
    Regroup(t.emitted.right, Silence(Max(-f, 0)) + (t.desk.queues.right + Samples(a.system.chunks)), Silence(r));
  }

  lemma SettlesOnlyWhenKnown(d: Desk, mic: Inbox, system: Inbox)
    requires d.skew.None? && Ready(d, mic, system).skew.Some?
    ensures d.mic.recorded && d.system.recorded
    ensures Received(d.mic, mic).start.Some? && Received(d.system, system).start.Some?
  {
  }

  /** Polls after the skew is known only add at the back: audio, with silence between. */
  lemma {:induction false} LaterAddsBehind(t: Tally, later: seq<Arrival>)
    returns (pl: seq<Sample>, ml: seq<Sample>, pr: seq<Sample>, mr: seq<Sample>)
    requires t.desk.skew.Some?
    ensures var u := PollAll(t, later);
            && u.desk.skew == t.desk.skew
            && LeftStream(u) == LeftStream(t) + ml && u.pushed.left == t.pushed.left + pl && Padding(pl, ml)
            && RightStream(u) == RightStream(t) + mr && u.pushed.right == t.pushed.right + pr && Padding(pr, mr)
  {
    hide PollOnce, Ready, Padding;
    if later == [] {
      pl, ml, pr, mr := [], [], [], [];
      PaddingItself([]);
      assert LeftStream(t) + [] == LeftStream(t) && RightStream(t) + [] == RightStream(t);
      assert t.pushed.left + [] == t.pushed.left && t.pushed.right + [] == t.pushed.right;
    } else {
      var front, a := later[..|later| - 1], later[|later| - 1];
      var u := PollAll(t, front);
      pl, ml, pr, mr := LaterAddsBehind(t, front);
      var l, r := ReadyAddsBehind(u.desk, a.mic, a.system);
      StreamsAreReady(u, a);
      GrowsBehind(pl, ml, Samples(a.mic.chunks), l);
      GrowsBehind(pr, mr, Samples(a.system.chunks), r);
      BehindTheRest(u.emitted.left, u.desk.queues.left, Samples(a.mic.chunks), Silence(l), LeftStream(t), ml);
      BehindTheRest(u.emitted.right, u.desk.queues.right, Samples(a.system.chunks), Silence(r), RightStream(t), mr);
      Regroup(t.pushed.left, pl, Samples(a.mic.chunks));
      Regroup(t.pushed.right, pr, Samples(a.system.chunks));
      pl, ml := pl + Samples(a.mic.chunks), ml + Samples(a.mic.chunks) + Silence(l);
      pr, mr := pr + Samples(a.system.chunks), mr + Samples(a.system.chunks) + Silence(r);
    }
  }

  lemma BehindTheRest(
      emitted: seq<Sample>, queue: seq<Sample>, more: seq<Sample>, pad: seq<Sample>, base: seq<Sample>, tail: seq<Sample>)
    requires emitted + queue == base + tail
    ensures emitted + (queue + more + pad) == base + (tail + more + pad)
  {
    Regroup(emitted, queue, more + pad);
    Regroup(base, tail, more + pad);
    Regroup(queue, more, pad);
    Regroup(tail, more, pad);
  }

  lemma GrowsBehind(audio: seq<Sample>, stream: seq<Sample>, more: seq<Sample>, n: nat)
    requires Padding(audio, stream)
    ensures Padding(audio + more, stream + more + Silence(n))
  {
    PaddingAppend(audio, stream, more);
    PaddingAtEnd(audio + more, stream + more, n);
  }

  /** The poll that settles the skew and everything after it. */
  lemma SettledStreams(t: Tally, a: Arrival, later: seq<Arrival>)
    returns (f: int, ml: seq<Sample>, mr: seq<Sample>, pl: seq<Sample>, pr: seq<Sample>)
    requires t.desk.skew.None? && PollOnce(t, a).desk.skew.Some?
    ensures var u := PollAll(PollOnce(t, a), later);
            && PollOnce(t, a).desk.skew == Some(f) && u.desk.skew == Some(f)
            && LeftStream(u) == (t.emitted.left + (Silence(Max(f, 0)) + (t.desk.queues.left + Samples(a.mic.chunks)))) + ml
            && RightStream(u)
               == (t.emitted.right + (Silence(Max(-f, 0)) + (t.desk.queues.right + Samples(a.system.chunks)))) + mr
            && u.pushed.left == t.pushed.left + Samples(a.mic.chunks) + pl && Padding(pl, ml)
            && u.pushed.right == t.pushed.right + Samples(a.system.chunks) + pr && Padding(pr, mr)
  {
    var l, r;
    f, l, r := SettlingPoll(t, a);
    pl, ml, pr, mr := LaterAddsBehind(PollOnce(t, a), later);
    StreamsAreReady(t, a);
    hide PollOnce, Ready, Padding, PollAll, LeftStream, RightStream, Samples, Silence;
    PaddingInFront(pl, l, ml);
    PaddingInFront(pr, r, mr);
    Regroup(t.emitted.left + (Silence(Max(f, 0)) + (t.desk.queues.left + Samples(a.mic.chunks))), Silence(l), ml);
    Regroup(t.emitted.right + (Silence(Max(-f, 0)) + (t.desk.queues.right + Samples(a.system.chunks))), Silence(r), mr);
    ml, mr := Silence(l) + ml, Silence(r) + mr;
  }

  /** Whatever came before and whatever comes after: the correction ends up in front of
      everything the late side was given exactly when all that side had emitted by then,
      if anything, is silence. */
  lemma SkewIsInFrontIff(t: Tally, a: Arrival, later: seq<Arrival>)
    requires t.desk.skew.None? && PollOnce(t, a).desk.skew.Some?
    ensures var f := PollOnce(t, a).desk.skew.value;
            var u := PollAll(PollOnce(t, a), later);
            && u.desk.skew == Some(f)
            && (f > 0 ==>
                  (Silence(f) + (LeftStream(t) + Samples(a.mic.chunks)) <= LeftStream(u) <==> AllSilence(t.emitted.left)))
            && (f < 0 ==>
                  (Silence(-f) + (RightStream(t) + Samples(a.system.chunks)) <= RightStream(u) <==> AllSilence(t.emitted.right)))
  {
    var f, ml, mr, _, _ := SettledStreams(t, a, later);
    hide PollOnce, Padding, AllSilence, PollAll, Samples, Silence;
    Regroup(t.emitted.left, t.desk.queues.left, Samples(a.mic.chunks));
    Regroup(t.emitted.right, t.desk.queues.right, Samples(a.system.chunks));
    if f > 0 {
      InFrontIff(f, t.emitted.left, t.desk.queues.left + Samples(a.mic.chunks), ml);
    }
    if f < 0 {
      InFrontIff(-f, t.emitted.right, t.desk.queues.right + Samples(a.system.chunks), mr);
    }
  }

  // ------------------------------------------------------------ runs that put it in front

  /** Every chunk carries its stream's start; only silence made up before any packet has none. */
  predicate Stamped(chunks: seq<Chunk>) {
    forall i :: 0 <= i < |chunks| ==> chunks[i].start.Some?
  }

  /** A channel whose sender is gone delivers nothing more. */
  predicate Orderly(d: Desk, a: Arrival) {
    && Stamped(a.mic.chunks) && Stamped(a.system.chunks)
    && (!d.mic.open ==> a.mic.gone && a.mic.chunks == [])
    && (!d.system.open ==> a.system.gone && a.system.chunks == [])
  }

  predicate OrderlyRun(t: Tally, arrivals: seq<Arrival>) {
    arrivals == []
    || (OrderlyRun(t, arrivals[..|arrivals| - 1])
        && Orderly(PollAll(t, arrivals[..|arrivals| - 1]).desk, arrivals[|arrivals| - 1]))
  }

  lemma {:induction false} StampedStart(known: Option<Ticks>, chunks: seq<Chunk>)
    requires Stamped(chunks)
    ensures FirstStart(known, chunks).None? <==> known.None? && chunks == []
  {
    if known.None? && chunks != [] {
      assert chunks[0].start.Some?;
    }
  }

  /** Before the skew is known nothing was emitted, unless it never will be. */
  ghost predicate Idle(t: Tally) {
    var d := t.desk;
    && d.mic.recorded && d.system.recorded && d.skew.None?
    && (d.mic.start.None? ==> t.pushed.left == [])
    && (d.system.start.None? ==> t.pushed.right == [])
    && (d.mic.start.None? || d.system.start.None?)
    && ((d.mic.start.None? && d.mic.open) || (d.system.start.None? && d.system.open) ==>
          t.emitted == Queues([], []) && d.queues == t.pushed)
  }

  lemma StillUnsettled(t: Tally, a: Arrival)
    requires Idle(t) && Orderly(t.desk, a) && PollOnce(t, a).desk.skew.None?
    ensures Idle(PollOnce(t, a))
  {
    StampedStart(t.desk.mic.start, a.mic.chunks);
    StampedStart(t.desk.system.start, a.system.chunks);
    var r := Ready(t.desk, a.mic, a.system);
    var received := Receive(t.desk, a.mic, a.system);
    var after := PollOnce(t, a);
    if (r.mic.start.None? && r.mic.open) || (r.system.start.None? && r.system.open) {
      assert received.queues == after.pushed;
      assert received.queues.left == [] || received.queues.right == [];
      assert r.queues == received.queues;
    }
  }

  lemma SkewStays(t: Tally, a: Arrival)
    requires t.desk.skew.Some?
    ensures PollOnce(t, a).desk.skew == t.desk.skew
  {
    var _, _ := ReadyAddsBehind(t.desk, a.mic, a.system);
    StreamsAreReady(t, a);
    hide PollOnce, Ready;
  }

  lemma {:induction false} IdleUntilSettled(arrivals: seq<Arrival>)
    requires OrderlyRun(Silent(false, false), arrivals)
    requires PollAll(Silent(false, false), arrivals).desk.skew.None?
    ensures Idle(PollAll(Silent(false, false), arrivals))
  {
    hide PollOnce, Orderly;
    if arrivals != [] {
      var front := arrivals[..|arrivals| - 1];
      var t := PollAll(Silent(false, false), front);
      if t.desk.skew.Some? {
        SkewStays(t, arrivals[|arrivals| - 1]);
      }
      IdleUntilSettled(front);
      StillUnsettled(t, arrivals[|arrivals| - 1]);
    }
  }

  /** The side whose start is news was still open, and had delivered nothing. */
  lemma NothingEmittedYet(t: Tally, a: Arrival)
    requires Idle(t) && Orderly(t.desk, a) && PollOnce(t, a).desk.skew.Some?
    ensures t.emitted == Queues([], []) && t.desk.queues == t.pushed
  {
    StampedStart(t.desk.mic.start, a.mic.chunks);
    StampedStart(t.desk.system.start, a.system.chunks);
    SettlesOnlyWhenKnown(t.desk, a.mic, a.system);
  }

  /** `f` frames of silence and then the audio. */
  predicate StartsWith(f: int, audio: seq<Sample>, stream: seq<Sample>) {
    f > 0 ==> f <= |stream| && stream[..f] == Silence(f) && Padding(audio, stream[f..])
  }

  /** With every chunk stamped until the skew is known, nothing was emitted by then: the side
      that started later begins with exactly that much silence and then its audio, whatever
      is delivered afterwards. */
  lemma SkewGoesFirst(before: seq<Arrival>, a: Arrival, later: seq<Arrival>)
    requires OrderlyRun(Silent(false, false), before)
    requires var t := PollAll(Silent(false, false), before);
             Orderly(t.desk, a) && t.desk.skew.None? && PollOnce(t, a).desk.skew.Some?
    ensures var t := PollAll(Silent(false, false), before);
            var f := PollOnce(t, a).desk.skew.value;
            var u := PollAll(PollOnce(t, a), later);
            && t.emitted == Queues([], [])
            && StartsWith(f, u.pushed.left, LeftStream(u)) && StartsWith(-f, u.pushed.right, RightStream(u))
  {
    hide PollOnce, PollAll, Orderly, OrderlyRun, StartsWith;
    var t := PollAll(Silent(false, false), before);
    IdleUntilSettled(before);
    NothingEmittedYet(t, a);
    NothingEmittedGoesFirst(t, a, later);
  }

  lemma NothingEmittedGoesFirst(t: Tally, a: Arrival, later: seq<Arrival>)
    requires t.desk.skew.None? && PollOnce(t, a).desk.skew.Some?
    requires t.emitted == Queues([], []) && t.desk.queues == t.pushed
    ensures var f := PollOnce(t, a).desk.skew.value;
            var u := PollAll(PollOnce(t, a), later);
            StartsWith(f, u.pushed.left, LeftStream(u)) && StartsWith(-f, u.pushed.right, RightStream(u))
  {
    var f, ml, mr, pl, pr := SettledStreams(t, a, later);
    SkewIsInFrontIff(t, a, later);
    hide PollAll, PollOnce, Samples, Padding, StartsWith, Silence;
    var u := PollAll(PollOnce(t, a), later);
    SideGoesFirst(f, t.emitted.left, t.desk.queues.left, Samples(a.mic.chunks), pl, ml, LeftStream(u));
    SideGoesFirst(-f, t.emitted.right, t.desk.queues.right, Samples(a.system.chunks), pr, mr, RightStream(u));
  }

  lemma SilenceIsLong(n: nat)
    ensures |Silence(n)| == n
  {
  }

  lemma SideGoesFirst(
      f: int, emitted: seq<Sample>, queue: seq<Sample>, chunks: seq<Sample>, more: seq<Sample>, padded: seq<Sample>,
      stream: seq<Sample>)
    requires Padding(more, padded) && emitted == []
    requires stream == (emitted + (Silence(Max(f, 0)) + (queue + chunks))) + padded
    requires f > 0 && AllSilence(emitted) ==> Silence(f) + ((emitted + queue) + chunks) <= stream
    ensures StartsWith(f, queue + chunks + more, stream)
  {
    hide Padding, Silence;
    if f > 0 {
      var audio, front := queue + chunks, Silence(f);
      assert emitted + queue == queue && emitted + (front + audio) == front + audio;
      PaddingItself(audio);
      PaddingJoin(audio, audio, more, padded);
      SilenceIsLong(f);
      assert stream[f..] == audio + padded;
    }
  }

  lemma {:induction false} PaddingJoin(a: seq<Sample>, s: seq<Sample>, b: seq<Sample>, r: seq<Sample>)
    requires Padding(a, s) && Padding(b, r)
    ensures Padding(a + b, s + r)
    decreases |s|
  {
    if s == [] {
      assert a + b == b && s + r == r;
    } else {
      assert (s + r)[1..] == s[1..] + r;
      if a != [] && a[0] == s[0] && Padding(a[1..], s[1..]) {
        assert (a + b)[1..] == a[1..] + b;
        PaddingJoin(a[1..], s[1..], b, r);
      } else {
        PaddingJoin(a, s[1..], b, r);
      }
    }
  }

  function BothDeliver(mic: Sample, system: Sample, start: Option<Ticks>): Arrival {
    Arrival(Inbox([Chunk([mic], Some(1250))], false), Inbox([Chunk([system], start)], false))
  }

  /** With an unstamped chunk it need not: silence synthesised for the system before its first
      real packet is emitted beside the microphone's audio, and the correction that follows
      lands behind it. By the condition above that shows unless the audio was silent too. */
  lemma UnstampedSkewComesLate(x: Sample, y: Sample)
    ensures var t := PollAll(Silent(false, false), [BothDeliver(x, y, None), BothDeliver(x, y, Some(0))]);
            && t.desk.skew == Some(2) && LeftStream(t) == [x, SILENCE, SILENCE, x]
            && (Silence(2) + [x, x] <= LeftStream(t) <==> x == SILENCE)
  {
    var early, late := BothDeliver(x, y, None), BothDeliver(x, y, Some(0));
    var t0 := Silent(false, false);
    assert [early, late][..1] == [early] && [early][..0] == [];
    EarlyPoll(x, y);
    var t1 := PollOnce(t0, early);
    LatePoll(t1, x, y);
    assert [x] + [] == [x] && AllSilence([x]) == (x == SILENCE) by {
      assert [x][0] == x;
    }
    OneChunk(Chunk([x], Some(1250)), None);
    assert LeftStream(t1) + Samples(late.mic.chunks) == [x, x];
    hide PollOnce;
    SkewIsInFrontIff(t1, late, []);
    assert PollAll(t0, [early]) == t1;
  }

  lemma EarlyPoll(x: Sample, y: Sample)
    ensures var t := PollOnce(Silent(false, false), BothDeliver(x, y, None));
            && t.desk.queues == Queues([], []) && t.emitted.left == [x] && t.desk.skew.None?
            && t.desk.mic == Side(true, true, Some(1250)) && t.desk.system == Side(true, true, None)
  {
    OneChunk(Chunk([x], Some(1250)), None);
    OneChunk(Chunk([y], None), None);
  }

  lemma LatePoll(t: Tally, x: Sample, y: Sample)
    requires t.desk.queues == Queues([], []) && t.emitted.left == [x] && t.desk.skew.None?
    requires t.desk.mic == Side(true, true, Some(1250)) && t.desk.system == Side(true, true, None)
    ensures var after := PollOnce(t, BothDeliver(x, y, Some(0)));
            after.desk.skew == Some(2) && LeftStream(after) == [x, SILENCE, SILENCE, x]
  {
    hide PollOnce, LeftStream;
    var late := BothDeliver(x, y, Some(0));
    StreamsAreReady(t, late);
    LateReady(t.desk, x, y);
  }

  lemma LateReady(d: Desk, x: Sample, y: Sample)
    requires d.queues == Queues([], []) && d.skew.None?
    requires d.mic == Side(true, true, Some(1250)) && d.system == Side(true, true, None)
    ensures var late := BothDeliver(x, y, Some(0));
            var r := Ready(d, late.mic, late.system);
            r.skew == Some(2) && r.queues.left == [SILENCE, SILENCE, x]
  {
    OneChunk(Chunk([x], Some(1250)), Some(1250));
    OneChunk(Chunk([y], Some(0)), None);
    assert SkewFrames(1250, 0) == 2;
    assert Silence(2) == [SILENCE, SILENCE];
  }

  lemma OneChunk(c: Chunk, known: Option<Ticks>)
    ensures Samples([c]) == c.samples
    ensures FirstStart(known, [c]) == if known.Some? then known else c.start
  {
    assert [c][1..] == [];
    assert Samples([c]) == c.samples + Samples([]);
  }
}
