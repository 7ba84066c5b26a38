/** The segmented writer's logical state, its steps as functions, and the formula every step
    computes: what the writer holds depends only on the frames it was given. */
module Tape {
  import opened Prelude
  import opened Assembly
  import opened Recording

  datatype EncodeError = EncodeFailed | SinkFailed | ManifestFailed

  datatype Record = Record(
    file: string, index: nat, samples: nat, durationMs: nat, startMs: nat, bytes: nat, sha: nat)

  datatype OpenSegment = OpenSegment(index: nat, samples: nat, start: nat)

  /** Everything but the sample buffer. `heard` is the encoder's state: every frame it was
      ever given. `written` is the muxer's: every packet, of whose pages the first `taken`
      already left. `offered` is the sink's: every segment it was ever handed. */
  datatype Tape = Tape(
    heard: seq<Frame>, held: Option<Packet>, written: seq<Written>, taken: nat, granule: nat,
    current: Option<OpenSegment>, segments: seq<Record>, offered: seq<Bytes>, stored: seq<Bytes>,
    total: nat)

  const BLANK := Tape([], None, [], 0, 0, None, [], [], [], 0)

  function SamplesToMs(samples: nat): nat {
    samples * 1000 / SAMPLE_RATE
  }

  // ------------------------------------------------------------ the steps

  function Open(rig: Rig, t: Tape): Tape {
    var written := if |t.segments| == 0 then t.written + Headers(rig) else t.written;
    t.(written := written, current := Some(OpenSegment(|t.segments|, 0, t.total)))
  }

  function Emit(rig: Rig, t: Tape, data: Packet, end: End): Tape {
    var t := if t.current.None? then Open(rig, t) else t;
    var segment := t.current.value;
    var granule := t.granule + FRAME_GRANULE;
    t.(current := Some(segment.(samples := segment.samples + FRAME_SAMPLES)),
       granule := granule, written := t.written + [Written(data, end, granule)])
  }

  /** The pages the muxer produced since the last segment was closed. */
  function Since(rig: Rig, written: seq<Written>, taken: nat): seq<Page> {
    var pages := Mux(rig, written).pages;
    if taken <= |pages| then pages[taken..] else []
  }

  function Close(rig: Rig, t: Tape): (Tape, Result<(), EncodeError>) {
    if t.current.None? then (t, Ok(()))
    else
      var segment := t.current.value;
      var bytes := Render(rig, Since(rig, t.written, t.taken));
      var offered := t.offered + [bytes];
      var name := rig.sink(offered);
      var closed := t.(current := None, taken := |Mux(rig, t.written).pages|, offered := offered);
      if name.None? then (closed, Err(SinkFailed))
      else
        var record := Record(name.value, segment.index, segment.samples, SamplesToMs(segment.samples),
                             SamplesToMs(segment.start), |bytes|, rig.digest(bytes));
        (closed.(segments := t.segments + [record], stored := t.stored + [bytes]), Ok(()))
  }

  /** The encoder is given one more frame; its packet is held and the one before it written. */
  function Hold(rig: Rig, t: Tape, frame: Frame): (Tape, Result<(), EncodeError>) {
    var t := if t.current.None? then Open(rig, t) else t;
    var heard := t.heard + [frame];
    var packet := rig.codec(heard);
    var t := t.(heard := heard);
    if packet.None? then (t, Err(EncodeFailed))
    else
      var previous := t.held;
      var t := t.(held := packet);
      var t := if previous.Some? then Emit(rig, t, previous.value, Normal) else t;
      (t.(total := t.total + FRAME_SAMPLES), Ok(()))
  }

  predicate Full(rig: Rig, t: Tape) {
    t.current.Some? && t.current.value.samples + FRAME_SAMPLES >= rig.segmentSamples
  }

  /** Write the held packet as the last of its segment, or of the recording. */
  function Release(rig: Rig, t: Tape, end: End): Tape {
    if t.held.None? then t else Emit(rig, t.(held := None), t.held.value, end)
  }

  /** One turn of the writer's loop. */
  function Turn(rig: Rig, t: Tape, frame: Frame): (Tape, Result<(), EncodeError>) {
    var (kept, answer) := Hold(rig, t, frame);
    if answer.Err? then (kept, answer)
    else if Full(rig, kept) then Close(rig, Release(rig, kept, EndPage))
    else (kept, answer)
  }

  // ------------------------------------------------------------ the formula

  /** Where segment `k` starts, in frames. */
  function First(rig: Rig, k: nat): nat {
    k * PerSegment(rig)
  }

  /** The first page that belongs to the segment starting at frame `a`: the headers are the
      first segment's. */
  function FirstPage(rig: Rig, frames: seq<Frame>, a: nat): nat
    requires PerSegment(rig) > 0 && a <= |frames|
  {
    if a == 0 then 0 else |PagesAfter(rig, frames, a)|
  }

  /** The bytes of the segment that holds frames `a` to `b`. */
  function BytesOver(rig: Rig, frames: seq<Frame>, a: nat, b: nat): Bytes
    requires PerSegment(rig) > 0 && a <= b <= |frames|
  {
    var pages := PagesAfter(rig, frames, b);
    var from := FirstPage(rig, frames, a);
    if from <= |pages| then Render(rig, pages[from..]) else []
  }

  function Names(rig: Rig, stored: seq<Bytes>, k: nat): string
    requires k < |stored|
  {
    var name := rig.sink(stored[..k + 1]);
    if name.Some? then name.value else ""
  }

  function RecordOver(rig: Rig, stored: seq<Bytes>, k: nat, a: nat, b: nat): Record
    requires k < |stored| && a <= b
  {
    Record(Names(rig, stored, k), k, FRAME_SAMPLES * (b - a), SamplesToMs(FRAME_SAMPLES * (b - a)),
           SamplesToMs(FRAME_SAMPLES * a), |stored[k]|, rig.digest(stored[k]))
  }

  lemma SegmentFits(rig: Rig, n: nat, k: nat)
    requires PerSegment(rig) > 0 && k < n / PerSegment(rig)
    ensures First(rig, k) <= First(rig, k + 1) == First(rig, k) + PerSegment(rig) <= n - n % PerSegment(rig) <= n
  {
    var f := PerSegment(rig);
    TimesNext(k, f);
    TimesLess(k + 1, n / f, f);
    assert n == n / f * f + n % f;
  }

  lemma TimesLess(a: nat, b: nat, f: nat)
    requires a <= b
    ensures a * f <= b * f
  {
  }

  /** The full segments among `frames`. */
  function FullBytes(rig: Rig, frames: seq<Frame>): (s: seq<Bytes>)
    requires PerSegment(rig) > 0
    ensures |s| == |frames| / PerSegment(rig)
  {
    seq(|frames| / PerSegment(rig), k requires 0 <= k < |frames| / PerSegment(rig) =>
      SegmentFits(rig, |frames|, k);
      BytesOver(rig, frames, First(rig, k), First(rig, k + 1)))
  }

  function FullRecords(rig: Rig, stored: seq<Bytes>): (s: seq<Record>)
    requires PerSegment(rig) > 0
    ensures |s| == |stored|
  {
    seq(|stored|, k requires 0 <= k < |stored| =>
      TimesNext(k, PerSegment(rig));
      RecordOver(rig, stored, k, First(rig, k), First(rig, k + 1)))
  }

  /** Frames in the segments that are already full. */
  function Settled(rig: Rig, n: nat): (c: nat)
    requires PerSegment(rig) > 0
    ensures c <= n
  {
    n - n % PerSegment(rig)
  }

  /** What the writer holds once it has encoded `frames`, and nothing was refused. */
  function TapeOf(rig: Rig, frames: seq<Frame>): Tape
    requires PerSegment(rig) > 0
  {
    var n := |frames|;
    if n % PerSegment(rig) == 0 then
      var stored := FullBytes(rig, frames);
      Tape(frames, None, Stream(rig, frames, n), FirstPage(rig, frames, n), FRAME_GRANULE * n,
           None, FullRecords(rig, stored), stored, stored, FRAME_SAMPLES * n)
    else
      Pending(rig, frames)
  }

  /** The same with the last packet still held: inside a segment, or at the end of one that
      is about to be closed. */
  function Pending(rig: Rig, frames: seq<Frame>): Tape
    requires PerSegment(rig) > 0 && frames != []
  {
    var n := |frames|;
    var stored := FullBytes(rig, frames[..n - 1]);
    var settled := Settled(rig, n - 1);
    Tape(frames, Some(PacketAt(rig, frames, n - 1)), Stream(rig, frames, n - 1),
         FirstPage(rig, frames, settled), FRAME_GRANULE * (n - 1),
         Some(OpenSegment(|stored|, FRAME_SAMPLES * (n - 1 - settled), FRAME_SAMPLES * settled)),
         FullRecords(rig, stored), stored, stored, FRAME_SAMPLES * n)
  }

  // ------------------------------------------------------------ every step computes the formula

  /** Adding one to a quotient. */
  lemma NextFrame(n: nat, f: nat)
    requires f > 0
    ensures (n + 1) % f == 0 ==> (n + 1) / f == n / f + 1 && n % f == f - 1
    ensures (n + 1) % f != 0 ==> (n + 1) / f == n / f && (n + 1) % f == n % f + 1
    ensures n == n / f * f + n % f
  {
    var q := n / f;
    var r := n % f;
    assert n == q * f + r;
    if r == f - 1 {
      TimesNext(q, f);
      DivIs(n + 1, f, q + 1, 0);
      assert (n + 1) % f == n + 1 - (q + 1) * f;
    } else {
      DivIs(n + 1, f, q, r + 1);
      assert (n + 1) % f == n + 1 - q * f;
    }
  }

  lemma BytesKeep(rig: Rig, frames: seq<Frame>, frame: Frame, a: nat, b: nat)
    requires PerSegment(rig) > 0 && a <= b <= |frames| && frames != []
    ensures BytesOver(rig, frames + [frame], a, b) == BytesOver(rig, frames, a, b)
    ensures FirstPage(rig, frames + [frame], a) == FirstPage(rig, frames, a)
  {
    StreamKeeps(rig, frames, frame, a);
    StreamKeeps(rig, frames, frame, b);
  }

  lemma SegmentKeeps(rig: Rig, frames: seq<Frame>, frame: Frame, k: nat)
    requires PerSegment(rig) > 0 && k < |frames| / PerSegment(rig)
    ensures First(rig, k) <= First(rig, k + 1) <= |frames|
    ensures BytesOver(rig, frames + [frame], First(rig, k), First(rig, k + 1))
         == BytesOver(rig, frames, First(rig, k), First(rig, k + 1))
         == FullBytes(rig, frames)[k]
  {
    hide BytesOver;
    SegmentFits(rig, |frames|, k);
    BytesKeep(rig, frames, frame, First(rig, k), First(rig, k + 1));
  }

  lemma FullBytesAt(rig: Rig, frames: seq<Frame>, k: nat)
    requires PerSegment(rig) > 0 && k < |frames| / PerSegment(rig)
    ensures First(rig, k) <= First(rig, k + 1) <= |frames|
    ensures FullBytes(rig, frames)[k] == BytesOver(rig, frames, First(rig, k), First(rig, k + 1))
  {
    hide BytesOver;
    SegmentFits(rig, |frames|, k);
  }

  /** The full segments among one more frame begin with those there were. */
  lemma FullBytesPrefix(rig: Rig, frames: seq<Frame>, frame: Frame)
    requires PerSegment(rig) > 0
    requires |frames| / PerSegment(rig) <= (|frames| + 1) / PerSegment(rig)
    ensures FullBytes(rig, frames) <= FullBytes(rig, frames + [frame])
  {
    hide BytesOver, First, PerSegment, FullBytes;
    forall k | 0 <= k < |frames| / PerSegment(rig)
      ensures FullBytes(rig, frames + [frame])[k] == FullBytes(rig, frames)[k]
    {
      SegmentKeeps(rig, frames, frame, k);
      FullBytesAt(rig, frames + [frame], k);
    }
  }

  /** Another frame leaves the segments that are already full as they are. */
  lemma FullBytesKeep(rig: Rig, frames: seq<Frame>, frame: Frame)
    requires PerSegment(rig) > 0
    requires (|frames| + 1) % PerSegment(rig) != 0
    ensures FullBytes(rig, frames + [frame]) == FullBytes(rig, frames)
  {
    hide FullBytes, PerSegment;
    NextFrame(|frames|, PerSegment(rig));
    FullBytesPrefix(rig, frames, frame);
  }

  /** Another frame that fills a segment adds exactly that segment. */
  lemma FullBytesGrow(rig: Rig, frames: seq<Frame>, frame: Frame)
    requires PerSegment(rig) > 0
    requires (|frames| + 1) % PerSegment(rig) == 0
    ensures FullBytes(rig, frames + [frame])
         == FullBytes(rig, frames) + [BytesOver(rig, frames + [frame], Settled(rig, |frames|), |frames| + 1)]
  {
    hide BytesOver, PerSegment;
    var f := PerSegment(rig);
    var n := |frames|;
    NextFrame(n, f);
    TimesNext(n / f, f);
    FullBytesPrefix(rig, frames, frame);
    assert First(rig, n / f) == Settled(rig, n) && First(rig, n / f + 1) == n + 1;
  }

  lemma RecordsGrow(rig: Rig, stored: seq<Bytes>, more: Bytes)
    requires PerSegment(rig) > 0
    ensures First(rig, |stored|) <= First(rig, |stored| + 1)
    ensures FullRecords(rig, stored + [more])
         == FullRecords(rig, stored)
          + [RecordOver(rig, stored + [more], |stored|, First(rig, |stored|), First(rig, |stored| + 1))]
  {
    TimesNext(|stored|, PerSegment(rig));
    forall k | 0 <= k < |stored|
      ensures FullRecords(rig, stored + [more])[k] == FullRecords(rig, stored)[k]
    {
      assert (stored + [more])[..k + 1] == stored[..k + 1];
    }
  }

  /** Encoding: the frame's packet is held, the one before it is in the stream. */
  lemma HoldKeeps(rig: Rig, frames: seq<Frame>, frame: Frame)
    requires PerSegment(rig) > 0
    ensures var (t, answer) := Hold(rig, TapeOf(rig, frames), frame);
            && (answer.Ok? <==> rig.codec(frames + [frame]).Some?)
            && (answer.Ok? ==> t == Pending(rig, frames + [frame]))
  {
    var fs := frames + [frame];
    var n := |frames|;
    assert fs[..n] == frames && fs[..n + 1] == fs;
    if rig.codec(fs).Some? {
      if n % PerSegment(rig) == 0 {
        HoldOpens(rig, frames, frame);
      } else {
        HoldWrites(rig, frames, frame);
      }
    }
  }

  lemma HoldOpens(rig: Rig, frames: seq<Frame>, frame: Frame)
    requires PerSegment(rig) > 0 && |frames| % PerSegment(rig) == 0
    requires rig.codec(frames + [frame]).Some?
    ensures Hold(rig, TapeOf(rig, frames), frame).0 == Pending(rig, frames + [frame])
  {
    var fs := frames + [frame];
    var n := |frames|;
    assert fs[..n] == frames && fs[..n + 1] == fs;
    if n > 0 {
      StreamKeeps(rig, frames, frame, n);
      NextFrame(n, PerSegment(rig));
      assert n / PerSegment(rig) > 0;
    }
  }

  lemma HoldWrites(rig: Rig, frames: seq<Frame>, frame: Frame)
    requires PerSegment(rig) > 0 && |frames| % PerSegment(rig) != 0
    requires rig.codec(frames + [frame]).Some?
    ensures Hold(rig, TapeOf(rig, frames), frame).0 == Pending(rig, frames + [frame])
  {
    hide PerSegment, TapeOf, FullBytes, FullRecords, Stream, FirstPage, PacketAt;
    PendingIsTape(rig, frames);
    assert Pending(rig, frames).current.Some? && Pending(rig, frames).heard == frames;
    PendingGrows(rig, frames, frame);
    hide Pending;
  }

  /** Inside a segment one more frame adds one packet and moves nothing else. */
  lemma PendingGrows(rig: Rig, frames: seq<Frame>, frame: Frame)
    requires PerSegment(rig) > 0 && |frames| % PerSegment(rig) != 0
    requires rig.codec(frames + [frame]).Some?
    ensures Pending(rig, frames).current.Some? && Pending(rig, frames).held.Some?
    ensures var p := Pending(rig, frames);
            var granule := p.granule + FRAME_GRANULE;
            Pending(rig, frames + [frame]) ==
              p.(heard := frames + [frame], held := rig.codec(frames + [frame]),
                 written := p.written + [Written(p.held.value, Normal, granule)], granule := granule,
                 current := Some(p.current.value.(samples := p.current.value.samples + FRAME_SAMPLES)),
                 total := p.total + FRAME_SAMPLES)
  {
    hide BytesOver, FullBytes, FullRecords, Stream, FirstPage, PerSegment, Settled, EndOf;
    var fs := frames + [frame];
    var n := |frames|;
    assert fs[..n] == frames && fs[..n + 1] == fs;
    var before := frames[..n - 1];
    assert frames == before + [frames[n - 1]];
    InsideSegment(rig, n - 1);
    FullBytesKeep(rig, before, frames[n - 1]);
    StreamKeeps(rig, frames, frame, n);
    StreamGrows(rig, frames, n - 1);
    BytesKeep(rig, frames, frame, Settled(rig, n), n);
  }

  lemma InsideSegment(rig: Rig, n: nat)
    requires PerSegment(rig) > 0 && (n + 1) % PerSegment(rig) != 0
    ensures Settled(rig, n + 1) == Settled(rig, n) && EndOf(rig, n) == Normal
  {
    NextFrame(n, PerSegment(rig));
  }

  lemma FullIff(rig: Rig, frames: seq<Frame>)
    requires PerSegment(rig) > 0 && frames != []
    ensures Full(rig, Pending(rig, frames)) <==> |frames| % PerSegment(rig) == 0
  {
    var f := PerSegment(rig);
    var n := |frames|;
    NextFrame(n - 1, f);
    var c := (n - 1) % f;
    assert Pending(rig, frames).current.value.samples == FRAME_SAMPLES * c;
    assert c < f;
  }

  /** The held packet is written as the last of its segment. */
  lemma ReleasedAtEnd(rig: Rig, frames: seq<Frame>)
    requires PerSegment(rig) > 0 && frames != [] && |frames| % PerSegment(rig) == 0
    ensures var p, r := Pending(rig, frames), Release(rig, Pending(rig, frames), EndPage);
            && p.current.Some? && r.current == Some(p.current.value.(samples := p.current.value.samples + FRAME_SAMPLES))
            && r == p.(held := None, written := Stream(rig, frames, |frames|), granule := FRAME_GRANULE * |frames|,
                       current := r.current)
  {
    hide FullBytes, FullRecords, FirstPage, PerSegment, Settled;
    StreamGrows(rig, frames, |frames| - 1);
  }

  /** What the muxer produced for it is what the formula says. */
  lemma SinceIsSegment(rig: Rig, frames: seq<Frame>)
    requires PerSegment(rig) > 0 && frames != []
    ensures Render(rig, Since(rig, Stream(rig, frames, |frames|), FirstPage(rig, frames, Settled(rig, |frames| - 1))))
         == BytesOver(rig, frames, Settled(rig, |frames| - 1), |frames|)
  {
    hide Mux, Render, Stream, PerSegment;
    PagesGrow(rig, frames, Settled(rig, |frames| - 1), |frames|);
  }

  /** Closing a full segment. */
  lemma CloseKeeps(rig: Rig, frames: seq<Frame>)
    requires PerSegment(rig) > 0 && frames != [] && |frames| % PerSegment(rig) == 0
    ensures var (t, answer) := Close(rig, Release(rig, Pending(rig, frames), EndPage));
            && (answer.Ok? <==> rig.sink(FullBytes(rig, frames)).Some?)
            && (answer.Ok? ==> t == TapeOf(rig, frames))
  {
    var n := |frames|;
    var before := frames[..n - 1];
    assert frames == before + [frames[n - 1]];
    ReleasedAtEnd(rig, frames);
    SinceIsSegment(rig, frames);
    FullBytesGrow(rig, before, frames[n - 1]);
    ClosedSegment(rig, before, frames);
  }

  lemma ClosedSegment(rig: Rig, before: seq<Frame>, frames: seq<Frame>)
    requires PerSegment(rig) > 0 && frames != [] && |frames| % PerSegment(rig) == 0 && before == frames[..|frames| - 1]
    requires FullBytes(rig, frames) == FullBytes(rig, before) + [BytesOver(rig, frames, Settled(rig, |before|), |frames|)]
    requires Render(rig, Since(rig, Stream(rig, frames, |frames|), FirstPage(rig, frames, Settled(rig, |before|))))
          == BytesOver(rig, frames, Settled(rig, |before|), |frames|)
    requires var p := Pending(rig, frames);
             p.current.Some? &&
             Release(rig, p, EndPage)
             == p.(held := None, written := Stream(rig, frames, |frames|), granule := FRAME_GRANULE * |frames|,
                   current := Some(p.current.value.(samples := p.current.value.samples + FRAME_SAMPLES)))
    ensures var (t, answer) := Close(rig, Release(rig, Pending(rig, frames), EndPage));
            && (answer.Ok? <==> rig.sink(FullBytes(rig, frames)).Some?)
            && (answer.Ok? ==> t == TapeOf(rig, frames))
  {
    hide Mux, Render, Stream, FirstPage, BytesOver, Since, Release, FullBytes, FullRecords;
    var stored := FullBytes(rig, before);
    var more := BytesOver(rig, frames, Settled(rig, |before|), |frames|);
    SegmentEnds(rig, |before|);
    RecordsGrow(rig, stored, more);
    PagesTaken(rig, frames);
    assert (stored + [more])[..|stored| + 1] == stored + [more];
    hide PerSegment;
  }

  lemma SegmentEnds(rig: Rig, n: nat)
    requires PerSegment(rig) > 0 && (n + 1) % PerSegment(rig) == 0
    ensures First(rig, n / PerSegment(rig)) == Settled(rig, n)
    ensures First(rig, n / PerSegment(rig) + 1) == n + 1
  {
    NextFrame(n, PerSegment(rig));
    TimesNext(n / PerSegment(rig), PerSegment(rig));
  }

  lemma PagesTaken(rig: Rig, frames: seq<Frame>)
    requires PerSegment(rig) > 0 && frames != []
    ensures FirstPage(rig, frames, |frames|) == |Mux(rig, Stream(rig, frames, |frames|)).pages|
  {
  }

  /** One turn of the loop takes the formula for `frames` to the formula for one more, and
      is refused exactly when the encoder or the sink refuses. */
  lemma TurnKeeps(rig: Rig, frames: seq<Frame>, frame: Frame)
    requires PerSegment(rig) > 0
    ensures var (t, answer) := Turn(rig, TapeOf(rig, frames), frame);
            var fs := frames + [frame];
            && (answer.Ok? <==>
                  rig.codec(fs).Some?
                  && (|fs| % PerSegment(rig) == 0 ==> rig.sink(FullBytes(rig, fs)).Some?))
            && (answer.Ok? ==> t == TapeOf(rig, fs))
  {
    hide Hold, Close, Release, Full, TapeOf, Pending;
    var fs := frames + [frame];
    HoldKeeps(rig, frames, frame);
    FullIff(rig, fs);
    var (kept, answer) := Hold(rig, TapeOf(rig, frames), frame);
    if |fs| % PerSegment(rig) == 0 {
      CloseKeeps(rig, fs);
    } else {
      PendingIsTape(rig, fs);
      assert answer.Ok? ==> Turn(rig, TapeOf(rig, frames), frame) == (kept, answer);
    }
  }

  lemma PendingIsTape(rig: Rig, frames: seq<Frame>)
    requires PerSegment(rig) > 0 && |frames| % PerSegment(rig) != 0
    ensures TapeOf(rig, frames) == Pending(rig, frames)
  {
  }

  // ------------------------------------------------------------ the writer's loop, over a buffer

  /** The samples that make whole frames, and those that do not yet. */
  function Whole(audio: seq<Sample>): seq<Sample> {
    audio[..|audio| - |audio| % FRAME_INTERLEAVED]
  }

  function Rest(audio: seq<Sample>): seq<Sample> {
    audio[|audio| - |audio| % FRAME_INTERLEAVED..]
  }

  function Frames(audio: seq<Sample>): seq<Frame> {
    Cut(Whole(audio), FRAME_INTERLEAVED)
  }

  lemma FramesStep(audio: seq<Sample>)
    requires |audio| >= FRAME_INTERLEAVED
    ensures Frames(audio) == [audio[..FRAME_INTERLEAVED]] + Frames(audio[FRAME_INTERLEAVED..])
    ensures Rest(audio) == Rest(audio[FRAME_INTERLEAVED..])
  {
    var later := audio[FRAME_INTERLEAVED..];
    assert |later| % FRAME_INTERLEAVED == |audio| % FRAME_INTERLEAVED;
    assert Whole(audio)[FRAME_INTERLEAVED..] == Whole(later);
    assert Whole(audio)[..FRAME_INTERLEAVED] == audio[..FRAME_INTERLEAVED];
  }

  /** More audio only ever adds frames. */
  lemma {:induction false} FramesAppend(a: seq<Sample>, b: seq<Sample>)
    ensures Frames(a + b) == Frames(a) + Frames(Rest(a) + b)
    ensures Rest(a + b) == Rest(Rest(a) + b)
    decreases |a|
  {
    if |a| < FRAME_INTERLEAVED {
      assert Whole(a) == [] && Rest(a) == a;
    } else {
      var later := a[FRAME_INTERLEAVED..];
      FramesStep(a);
      FramesStep(a + b);
      assert (a + b)[FRAME_INTERLEAVED..] == later + b;
      assert (a + b)[..FRAME_INTERLEAVED] == a[..FRAME_INTERLEAVED];
      FramesAppend(later, b);
    }
  }

  datatype Drained = Drained(tape: Tape, rest: seq<Sample>, answer: Result<(), EncodeError>)

  /** Encode while a whole frame is there. A frame the encoder refuses stays in the buffer. */
  function Drain(rig: Rig, t: Tape, live: seq<Sample>): Drained
    decreases |live|
  {
    if |live| < FRAME_INTERLEAVED then Drained(t, live, Ok(()))
    else
      var (next, answer) := Turn(rig, t, live[..FRAME_INTERLEAVED]);
      if answer == Err(EncodeFailed) then Drained(next, live, answer)
      else if answer.Err? then Drained(next, live[FRAME_INTERLEAVED..], answer)
      else Drain(rig, next, live[FRAME_INTERLEAVED..])
  }

  /** The encoder takes the last of these frames, and the sink the segment it completes. */
  predicate Accepts(rig: Rig, frames: seq<Frame>)
    requires PerSegment(rig) > 0
  {
    && rig.codec(frames).Some?
    && (|frames| % PerSegment(rig) == 0 ==> rig.sink(FullBytes(rig, frames)).Some?)
  }

  /** Every frame from `n` on is accepted in its turn. */
  predicate AcceptsFrom(rig: Rig, frames: seq<Frame>, n: nat)
    requires PerSegment(rig) > 0
  {
    forall i :: n < i <= |frames| ==> Accepts(rig, frames[..i])
  }

  /** Draining a buffer computes the formula for all the frames in it. */
  lemma {:induction false} DrainKeeps(rig: Rig, frames: seq<Frame>, live: seq<Sample>)
    requires PerSegment(rig) > 0
    ensures var d := Drain(rig, TapeOf(rig, frames), live);
            var after := frames + Frames(live);
            && (d.answer.Ok? <==> AcceptsFrom(rig, after, |frames|))
            && (d.answer.Ok? ==> d.tape == TapeOf(rig, after) && d.rest == Rest(live))
    decreases |live|
  {
    hide Turn, TapeOf, Accepts, PerSegment;
    var after := frames + Frames(live);
    if |live| < FRAME_INTERLEAVED {
      assert Whole(live) == [] && after == frames;
    } else {
      var frame := live[..FRAME_INTERLEAVED];
      var later := live[FRAME_INTERLEAVED..];
      FramesStep(live);
      assert after == (frames + [frame]) + Frames(later);
      assert after[..|frames| + 1] == frames + [frame];
      FrameAccepted(rig, frames, frame);
      if Accepts(rig, frames + [frame]) {
        DrainKeeps(rig, frames + [frame], later);
      }
    }
  }

  lemma FrameAccepted(rig: Rig, frames: seq<Frame>, frame: Frame)
    requires PerSegment(rig) > 0
    ensures var (t, answer) := Turn(rig, TapeOf(rig, frames), frame);
            && (answer.Ok? <==> Accepts(rig, frames + [frame]))
            && (answer.Ok? ==> t == TapeOf(rig, frames + [frame]))
  {
    hide Turn, TapeOf;
    TurnKeeps(rig, frames, frame);
  }

  // ------------------------------------------------------------ the end of the recording

  function Silence(n: nat): (s: seq<Sample>)
    ensures |s| == n
  {
    seq(n, _ => SILENCE)
  }

  /** `resize`: longer than a frame is cut, shorter is filled with silence. */
  function Resized(live: seq<Sample>): (f: Frame)
    ensures |f| == FRAME_INTERLEAVED
  {
    if |live| >= FRAME_INTERLEAVED then live[..FRAME_INTERLEAVED]
    else live + Silence(FRAME_INTERLEAVED - |live|)
  }

  /** What is left at the end is flushed whole unless it is more than a frame, which only a
      write that was refused can leave behind. */
  lemma TailKeptIff(live: seq<Sample>)
    ensures live <= Resized(live) <==> |live| <= FRAME_INTERLEAVED
    ensures |live| <= FRAME_INTERLEAVED ==> Resized(live)[|live|..] == Silence(FRAME_INTERLEAVED - |live|)
  {
    if |live| == FRAME_INTERLEAVED {
      assert live[..FRAME_INTERLEAVED] == live;
    }
  }

  function Finish(rig: Rig, t: Tape, live: seq<Sample>): (Tape, Result<(), EncodeError>) {
    var (kept, answer) := if |live| > 0 then Hold(rig, t, Resized(live)) else (t, Ok(()));
    if answer.Err? then (kept, answer) else Close(rig, Release(rig, kept, EndStream))
  }

  /** The recording padded with silence to a whole number of frames. */
  function Padded(audio: seq<Sample>): seq<Sample> {
    if |audio| % FRAME_INTERLEAVED == 0 then audio
    else audio + Silence(FRAME_INTERLEAVED - |audio| % FRAME_INTERLEAVED)
  }

  function AllFrames(audio: seq<Sample>): seq<Frame> {
    Cut(Padded(audio), FRAME_INTERLEAVED)
  }

  lemma LastFrame(audio: seq<Sample>)
    ensures AllFrames(audio) == Frames(audio) + (if Rest(audio) == [] then [] else [Resized(Rest(audio))])
  {
    if Rest(audio) == [] {
      assert Whole(audio) == audio;
    } else {
      var padding := Silence(FRAME_INTERLEAVED - |audio| % FRAME_INTERLEAVED);
      FramesAppend(audio, padding);
      var padded := audio + padding;
      assert |padded| % FRAME_INTERLEAVED == 0 && Whole(padded) == padded;
      var last := Rest(audio) + padding;
      assert last == Resized(Rest(audio)) && Whole(last) == last;
      assert last[FRAME_INTERLEAVED..] == [] && last[..FRAME_INTERLEAVED] == last;
      assert Cut(last, FRAME_INTERLEAVED) == [last];
    }
  }

  /** The whole stream. `ended`: the last packet closes it, which happens when the recording
      stops anywhere but exactly at the end of a full segment. */
  function FinalStream(rig: Rig, frames: seq<Frame>, ended: bool): seq<Written>
    requires PerSegment(rig) > 0 && (ended ==> frames != [])
  {
    var n := |frames|;
    if ended then
      Stream(rig, frames, n - 1) + [Written(PacketAt(rig, frames, n - 1), EndStream, FRAME_GRANULE * n)]
    else Stream(rig, frames, n)
  }

  /** The bytes of the segment still open at the end. */
  function LastBytes(rig: Rig, frames: seq<Frame>): Bytes
    requires PerSegment(rig) > 0 && frames != []
  {
    Render(rig, Since(rig, FinalStream(rig, frames, true), FirstPage(rig, frames, Settled(rig, |frames| - 1))))
  }

  /** What a finished writer holds. */
  function FinalTape(rig: Rig, frames: seq<Frame>, ended: bool): Tape
    requires PerSegment(rig) > 0 && (ended ==> frames != [])
  {
    if !ended then TapeOf(rig, frames)
    else
      var n := |frames|;
      var settled := Settled(rig, n - 1);
      var full := FullBytes(rig, frames[..n - 1]);
      var stored := full + [LastBytes(rig, frames)];
      Tape(frames, None, FinalStream(rig, frames, true), |Mux(rig, FinalStream(rig, frames, true)).pages|,
           FRAME_GRANULE * n, None,
           FullRecords(rig, full) + [RecordOver(rig, stored, |full|, settled, n)],
           stored, stored, FRAME_SAMPLES * n)
  }

  lemma CloseEnds(rig: Rig, frames: seq<Frame>)
    requires PerSegment(rig) > 0 && frames != []
    ensures var (t, answer) := Close(rig, Release(rig, Pending(rig, frames), EndStream));
            && (answer.Ok? <==> rig.sink(FinalTape(rig, frames, true).stored).Some?)
            && (answer.Ok? ==> t == FinalTape(rig, frames, true))
  {
    hide Mux, Render, FullBytes, FullRecords, Stream, FirstPage, PerSegment, Settled, Since;
    var released := Release(rig, Pending(rig, frames), EndStream);
    assert released.written == FinalStream(rig, frames, true);
    var stored := FinalTape(rig, frames, true).stored;
    assert stored[..|stored|] == stored;
  }

  lemma FinishTail(rig: Rig, frames: seq<Frame>, live: seq<Sample>)
    requires PerSegment(rig) > 0 && live != []
    ensures var all := frames + [Resized(live)];
            var (t, answer) := Finish(rig, TapeOf(rig, frames), live);
            && (answer.Ok? <==> rig.codec(all).Some? && rig.sink(FinalTape(rig, all, true).stored).Some?)
            && (answer.Ok? ==> t == FinalTape(rig, all, true))
  {
    hide Close, FinalTape, Hold, PerSegment, Pending, TapeOf, Release, Resized;
    assert |live| > 0;
    var frame := Resized(live);
    HoldKeeps(rig, frames, frame);
    CloseEnds(rig, frames + [frame]);
    var (kept, held) := Hold(rig, TapeOf(rig, frames), frame);
    assert Finish(rig, TapeOf(rig, frames), live)
        == if held.Err? then (kept, held) else Close(rig, Release(rig, kept, EndStream));
  }

  lemma FinishInside(rig: Rig, frames: seq<Frame>)
    requires PerSegment(rig) > 0 && frames != [] && |frames| % PerSegment(rig) != 0
    ensures var (t, answer) := Finish(rig, TapeOf(rig, frames), []);
            && (answer.Ok? <==> rig.sink(FinalTape(rig, frames, true).stored).Some?)
            && (answer.Ok? ==> t == FinalTape(rig, frames, true))
  {
    hide Close, FinalTape, PerSegment, Pending, TapeOf, Release;
    PendingIsTape(rig, frames);
    CloseEnds(rig, frames);
  }

  lemma FinishBetween(rig: Rig, frames: seq<Frame>)
    requires PerSegment(rig) > 0 && |frames| % PerSegment(rig) == 0
    ensures Finish(rig, TapeOf(rig, frames), []) == (FinalTape(rig, frames, false), Ok(()))
  {
  }

  /** Whether an unfinished segment or a tail remains when the recording stops. */
  predicate Unfinished(rig: Rig, audio: seq<Sample>)
    requires PerSegment(rig) > 0
  {
    |audio| % FRAME_INTERLEAVED != 0 || |AllFrames(audio)| % PerSegment(rig) != 0
  }

  lemma NothingRemains(rig: Rig)
    requires PerSegment(rig) > 0
    ensures 0 % PerSegment(rig) == 0
  {
  }

  /** Finishing computes the formula for the padded recording. The stream is closed by an
      end-of-stream packet exactly when an unfinished segment or a tail remains. */
  lemma FinishKeeps(rig: Rig, audio: seq<Sample>)
    requires PerSegment(rig) > 0
    ensures Unfinished(rig, audio) ==> AllFrames(audio) != []
    ensures var (t, answer) := Finish(rig, TapeOf(rig, Frames(audio)), Rest(audio));
            && (answer.Ok? <==>
                  && (Rest(audio) != [] ==> rig.codec(AllFrames(audio)).Some?)
                  && (Unfinished(rig, audio) ==> rig.sink(FinalTape(rig, AllFrames(audio), true).stored).Some?))
            && (answer.Ok? ==> t == FinalTape(rig, AllFrames(audio), Unfinished(rig, audio)))
  {
    hide Finish, FinalTape, PerSegment, TapeOf, Frames, AllFrames;
    LastFrame(audio);
    NothingRemains(rig);
    assert |Rest(audio)| == |audio| % FRAME_INTERLEAVED;
    if Rest(audio) != [] {
      FinishTail(rig, Frames(audio), Rest(audio));
    } else {
      assert AllFrames(audio) == Frames(audio);
      if Unfinished(rig, audio) {
        FinishInside(rig, Frames(audio));
      } else {
        FinishBetween(rig, Frames(audio));
      }
    }
  }
}
