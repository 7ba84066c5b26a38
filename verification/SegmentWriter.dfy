/** The segmented Opus writer as it runs: a sample buffer with a cursor, one packet held
    back, segments opened and closed as frames go by. Its logical state is proved to follow
    `Tape`, so what it stores depends on the audio alone and not on how the audio arrived. */
module SegmentWriter {
  import opened Prelude
  import opened Assembly
  import opened Recording
  import opened Tape
  import Finished

  const COMPACT_THRESHOLD := 5_120

  datatype Manifest = Manifest(
    inputDevice: string, outputDevice: string, startSkewMs: int,
    totalSamples: nat, durationMs: nat, segments: seq<Record>)

  class Writer {
    const rig: Rig
    /** Whether the sink's own manifest can be written. */
    const keepsManifest: bool

    var pending: seq<Sample>
    /** The live samples are `pending[head..]`. */
    var head: nat
    /** The work of all compactions, in samples. */
    var moved: nat

    var heard: seq<Frame>
    var held: Option<Packet>
    var written: seq<Written>
    var taken: nat
    var granule: nat
    var current: Option<OpenSegment>
    var segments: seq<Record>
    var offered: seq<Bytes>
    var stored: seq<Bytes>
    var total: nat

    /** Every sample any `Write` was given. */
    ghost var fed: seq<Sample>

    function State(): Tape
      reads this
    {
      Tape(heard, held, written, taken, granule, current, segments, offered, stored, total)
    }

    function Live(): seq<Sample>
      reads this
      requires head <= |pending|
    {
      pending[head..]
    }

    /** Kept by every call, refused or not: compaction has moved no more than was fed less
        what is still in the buffer, dead prefix included. */
    ghost predicate Valid()
      reads this
    {
      head <= |pending| && head % FRAME_INTERLEAVED == 0 && moved + |pending| <= |fed| && PerSegment(rig) > 0
    }

    /** While nothing was refused: the buffer holds less than a frame and the rest is the
        formula for what was fed. */
    ghost predicate Sound()
      reads this
    {
      && Valid()
      && head == 0 && |pending| < FRAME_INTERLEAVED
      && pending == Rest(fed) && State() == TapeOf(rig, Frames(fed))
    }

    constructor (rig: Rig, segmentSeconds: real, keepsManifest: bool)
      requires rig.segmentSamples == SegmentSamples(segmentSeconds)
      ensures Sound() && fed == [] && moved == 0
      ensures this.rig == rig && this.keepsManifest == keepsManifest
    {
      this.rig := rig;
      this.keepsManifest := keepsManifest;
      pending, head, moved, fed := [], 0, 0, [];
      heard, held, written, taken, granule := [], None, [], 0, 0;
      current, segments, offered, stored, total := None, [], [], [], 0;
      new;
      NothingRemains(rig);
    }

    /** The formula of everything heard so far, extended by `interleaved`. */
    method Write(interleaved: seq<Sample>) returns (r: Result<(), EncodeError>)
      requires Valid()
      modifies this
      ensures Valid() && fed == old(fed) + interleaved
      ensures Drained(State(), Live(), r) == Drain(rig, old(State()), old(Live()) + interleaved)
      ensures r.Ok? ==> head == 0 && |pending| < FRAME_INTERLEAVED
      ensures old(Sound()) ==>
                (r.Ok? <==> AcceptsFrom(rig, Frames(old(fed) + interleaved), |Frames(old(fed))|))
      ensures old(Sound()) && r.Ok? ==> Sound()
    {
      ghost var before, live, sound := State(), Live(), Sound();
      pending := pending + interleaved;
      fed := fed + interleaved;
      assert Live() == live + interleaved;
      r := EncodeWholeFrames();
      if r.Err? {
        WriteKeeps(rig, old(fed), interleaved, before, live);
        return;
      }
      Compact();
      WriteKeeps(rig, old(fed), interleaved, before, live);
    }

    method EncodeWholeFrames() returns (r: Result<(), EncodeError>)
      requires Valid()
      modifies this
      ensures Valid() && fed == old(fed) && moved == old(moved) && pending == old(pending)
      ensures Drained(State(), Live(), r) == Drain(rig, old(State()), old(Live()))
      ensures r.Ok? ==> |Live()| < FRAME_INTERLEAVED
    {
      while Buffered() >= FRAME_INTERLEAVED
        invariant Valid() && fed == old(fed) && moved == old(moved) && pending == old(pending)
        invariant Drain(rig, State(), Live()) == Drain(rig, old(State()), old(Live()))
        decreases |pending| - head
      {
        ghost var live := Live();
        var frame := pending[head..head + FRAME_INTERLEAVED];
        assert frame == live[..FRAME_INTERLEAVED];
        r := EncodeOne(frame);
        if r.Err? {
          assert r.error != EncodeFailed ==> Live() == live[FRAME_INTERLEAVED..];
          return;
        }
        assert Live() == live[FRAME_INTERLEAVED..];
      }
      r := Ok(());
    }

    /** One turn: hold the new packet, write the one before it, close the segment it fills. */
    method EncodeOne(frame: Frame) returns (r: Result<(), EncodeError>)
      requires Valid() && |pending| - head >= FRAME_INTERLEAVED
      modifies this
      ensures Valid() && fed == old(fed) && moved == old(moved) && pending == old(pending)
      ensures (State(), r) == Turn(rig, old(State()), frame)
      ensures head == if r == Err(EncodeFailed) then old(head) else old(head) + FRAME_INTERLEAVED
    {
      r := EncodeFrame(frame);
      if r.Err? {
        return;
      }
      head := head + FRAME_INTERLEAVED;
      var full := current.Some? && current.value.samples + FRAME_SAMPLES >= rig.segmentSamples;
      if full {
        ReleaseHeld(EndPage);
        r := CloseSegment();
      }
    }

    method EncodeFrame(frame: Frame) returns (r: Result<(), EncodeError>)
      modifies this`heard, this`held, this`written, this`granule, this`current, this`total
      ensures (State(), r) == Hold(rig, old(State()), frame)
      ensures r.Ok? || r == Err(EncodeFailed)
    {
      if current.None? {
        BeginSegment();
      }
      heard := heard + [frame];
      var packet := rig.codec(heard);
      if packet.None? {
        return Err(EncodeFailed);
      }
      var previous := held;
      held := packet;
      if previous.Some? {
        EmitPacket(previous.value, Normal);
      }
      total := total + FRAME_SAMPLES;
      r := Ok(());
    }

    method ReleaseHeld(end: End)
      modifies this`held, this`written, this`granule, this`current
      ensures State() == Release(rig, old(State()), end)
    {
      if held.Some? {
        var last := held.value;
        held := None;
        EmitPacket(last, end);
      }
    }

    method BeginSegment()
      modifies this`written, this`current
      ensures State() == Open(rig, old(State()))
    {
      var index := |segments|;
      if index == 0 {
        written := written + [Recording.Written(rig.head, EndPage, 0)];
        written := written + [Recording.Written(rig.tags, EndPage, 0)];
      }
      current := Some(OpenSegment(index, 0, total));
    }

    /** `Emit`, in place: a missing muxer is opened first. */
    method EmitPacket(data: Packet, end: End)
      modifies this`written, this`granule, this`current
      ensures State() == Emit(rig, old(State()), data, end)
    {
      if current.None? {
        BeginSegment();
      }
      current := Some(current.value.(samples := current.value.samples + FRAME_SAMPLES));
      granule := granule + FRAME_GRANULE;
      written := written + [Recording.Written(data, end, granule)];
    }

    method CloseSegment() returns (r: Result<(), EncodeError>)
      modifies this`current, this`taken, this`offered, this`segments, this`stored
      ensures (State(), r) == Close(rig, old(State()))
      ensures r.Ok? || r == Err(SinkFailed)
      ensures old(segments) <= segments && old(stored) <= stored
    {
      if current.None? {
        return Ok(());
      }
      var segment := current.value;
      current := None;
      var bytes := Render(rig, Since(rig, written, taken));
      taken := |Mux(rig, written).pages|;
      offered := offered + [bytes];
      var name := rig.sink(offered);
      if name.None? {
        return Err(SinkFailed);
      }
      segments := segments + [Record(name.value, segment.index, segment.samples, SamplesToMs(segment.samples),
                                     SamplesToMs(segment.start), |bytes|, rig.digest(bytes))];
      stored := stored + [bytes];
      r := Ok(());
    }

    function Buffered(): nat
      reads this
      requires head <= |pending|
    {
      |pending| - head
    }

    /** `pending` shrinks to its live region; each sample moved is counted. */
    method Compact()
      requires Valid() && |Live()| < FRAME_INTERLEAVED
      modifies this`pending, this`head, this`moved
      ensures Valid() && Live() == old(Live()) && head == 0
    {
      if head == 0 {
        return;
      }
      if head < |pending| - head && head < COMPACT_THRESHOLD {
        return;
      }
      moved := moved + (|pending| - head);
      pending := pending[head..];
      head := 0;
    }

    /** Reaches `FinalTape`, and answers a manifest exactly when every step to it succeeded. */
    method FinishRecording(inputDevice: string, outputDevice: string, startSkewMs: int)
      returns (r: Result<Manifest, EncodeError>)
      requires Valid()
      modifies this
      ensures old(Sound()) ==>
                (r.Ok? <==>
                   && keepsManifest
                   && (Rest(old(fed)) != [] ==> rig.codec(AllFrames(old(fed))).Some?)
                   && (Unfinished(rig, old(fed)) ==>
                         AllFrames(old(fed)) != []
                         && rig.sink(FinalTape(rig, AllFrames(old(fed)), true).stored).Some?))
      ensures old(Sound()) && r.Ok? ==>
                && (Unfinished(rig, old(fed)) ==> AllFrames(old(fed)) != [])
                && State() == FinalTape(rig, AllFrames(old(fed)), Unfinished(rig, old(fed)))
      ensures r.Ok? ==>
                r.value == Manifest(inputDevice, outputDevice, startSkewMs, total, SamplesToMs(total), segments)
      ensures old(segments) <= segments && old(stored) <= stored
    {
      ghost var before, live := State(), Live();
      FinishKeeps(rig, fed);
      var answer := FlushTail();
      assert (State(), answer) == Finish(rig, before, live);
      if answer.Err? {
        return Err(answer.error);
      }
      var manifest := Manifest(inputDevice, outputDevice, startSkewMs, total, SamplesToMs(total), segments);
      if !keepsManifest {
        return Err(ManifestFailed);
      }
      r := Ok(manifest);
    }

    method FlushTail() returns (r: Result<(), EncodeError>)
      requires Valid()
      modifies this
      ensures (State(), r) == Finish(rig, old(State()), old(Live()))
      ensures old(segments) <= segments && old(stored) <= stored
    {
      hide Hold, Release, Close, Resized;
      if Buffered() > 0 {
        pending := pending[head..];
        head := 0;
        pending := Resized(pending);
        var encoded := EncodeFrame(pending);
        if encoded.Err? {
          return encoded;
        }
        pending := [];
      }
      ReleaseHeld(EndStream);
      r := CloseSegment();
    }
  }

  /** What one `Write` does to a sound writer. */
  lemma WriteKeeps(rig: Rig, fed: seq<Sample>, more: seq<Sample>, before: Tape, live: seq<Sample>)
    requires PerSegment(rig) > 0
    ensures live == Rest(fed) && before == TapeOf(rig, Frames(fed)) ==>
              var d := Drain(rig, before, live + more);
              && (d.answer.Ok? <==> AcceptsFrom(rig, Frames(fed + more), |Frames(fed)|))
              && (d.answer.Ok? ==> d.rest == Rest(fed + more) && d.tape == TapeOf(rig, Frames(fed + more)))
  {
    hide TapeOf, Drain, Frames, Rest, PerSegment;
    FramesAppend(fed, more);
    DrainKeeps(rig, Frames(fed), Rest(fed) + more);
  }

  // ------------------------------------------------------------ how the audio is cut does not matter

  /** Write after write, stopping at the first refusal. */
  function WriteAll(rig: Rig, d: Drained, pieces: seq<seq<Sample>>): Drained
    decreases |pieces|
  {
    if pieces == [] || d.answer.Err? then d
    else WriteAll(rig, Drain(rig, d.tape, d.rest + pieces[0]), pieces[1..])
  }

  const FRESH := Drained(BLANK, [], Ok(()))

  /** Whatever the pieces, the writer ends where the formula for their concatenation says,
      and it gets there exactly when encoder and sink accept each frame in turn. */
  lemma {:induction false} OnlyTheAudioMatters(rig: Rig, fed: seq<Sample>, pieces: seq<seq<Sample>>)
    requires PerSegment(rig) > 0
    ensures var d := WriteAll(rig, Drained(TapeOf(rig, Frames(fed)), Rest(fed), Ok(())), pieces);
            var audio := fed + Flatten(pieces);
            && (d.answer.Ok? <==> AcceptsFrom(rig, Frames(audio), |Frames(fed)|))
            && (d.answer.Ok? ==> d.tape == TapeOf(rig, Frames(audio)) && d.rest == Rest(audio))
    decreases |pieces|
  {
    hide TapeOf, Drain, Frames, Rest, PerSegment, AcceptsFrom;
    if pieces == [] {
      assert fed + Flatten(pieces) == fed;
      NothingToAccept(rig, Frames(fed));
    } else {
      var more := fed + pieces[0];
      assert fed + Flatten(pieces) == more + Flatten(pieces[1..]);
      WriteKeeps(rig, fed, pieces[0], TapeOf(rig, Frames(fed)), Rest(fed));
      FramesAppend(fed, pieces[0]);
      FramesAppend(more, Flatten(pieces[1..]));
      var all := Frames(more + Flatten(pieces[1..]));
      assert Frames(more) == all[..|Frames(more)|];
      AcceptsInTwo(rig, all, |Frames(fed)|, |Frames(more)|);
      OnlyTheAudioMatters(rig, more, pieces[1..]);
    }
  }

  lemma NothingToAccept(rig: Rig, frames: seq<Frame>)
    requires PerSegment(rig) > 0
    ensures AcceptsFrom(rig, frames, |frames|)
  {
  }

  lemma AcceptsInTwo(rig: Rig, frames: seq<Frame>, a: nat, b: nat)
    requires PerSegment(rig) > 0 && a <= b <= |frames|
    ensures AcceptsFrom(rig, frames, a) <==> AcceptsFrom(rig, frames[..b], a) && AcceptsFrom(rig, frames, b)
  {
    hide Accepts, PerSegment;
    assert forall i :: a < i <= b ==> frames[..b][..i] == frames[..i];
  }

  lemma BlankIsTheFormula(rig: Rig)
    requires PerSegment(rig) > 0
    ensures FRESH == Drained(TapeOf(rig, Frames([])), Rest([]), Ok(())) && Frames([]) == []
  {
    NothingRemains(rig);
  }

  /** The losing side is reached: an encoder that refuses the first frame of a longer first
      write leaves all of it in the buffer, and the flush encodes that first frame alone. */
  lemma RefusedWriteLosesTail(rig: Rig, audio: seq<Sample>)
    requires |audio| > FRAME_INTERLEAVED && rig.codec([audio[..FRAME_INTERLEAVED]]).None?
    ensures var d := WriteAll(rig, FRESH, [audio]);
            && d.answer == Err(EncodeFailed) && d.rest == audio
            && !(d.rest <= Resized(d.rest))
            && Finish(rig, d.tape, d.rest).0.heard == [audio[..FRAME_INTERLEAVED], audio[..FRAME_INTERLEAVED]]
  {
    var first := audio[..FRAME_INTERLEAVED];
    assert [] + audio == audio && [audio][1..] == [];
    assert BLANK.heard + [first] == [first];
    var d := Drain(rig, BLANK, audio);
    assert WriteAll(rig, FRESH, [audio]) == WriteAll(rig, d, []);
    TailKeptIff(audio);
    FlushHears(rig, d.tape, audio);
  }

  lemma FlushHears(rig: Rig, t: Tape, live: seq<Sample>)
    requires live != []
    ensures Finish(rig, t, live).0.heard == t.heard + [Resized(live)]
  {
  }

  /** A new writer fed piece by piece. */
  lemma FromFresh(rig: Rig, pieces: seq<seq<Sample>>)
    requires PerSegment(rig) > 0
    ensures var d := WriteAll(rig, FRESH, pieces);
            var audio := Flatten(pieces);
            && (d.answer.Ok? <==> AcceptsFrom(rig, Frames(audio), 0))
            && (d.answer.Ok? ==> d == Drained(TapeOf(rig, Frames(audio)), Rest(audio), Ok(())))
  {
    hide *;
    BlankIsTheFormula(rig);
    OnlyTheAudioMatters(rig, [], pieces);
    assert [] + Flatten(pieces) == Flatten(pieces);
    var d := WriteAll(rig, FRESH, pieces);
    if d.answer.Ok? {
      assert d.answer.value == ();
    }
  }

  /** Two ways of cutting the same audio give the same writer. */
  lemma CutDoesNotMatter(rig: Rig, p: seq<seq<Sample>>, q: seq<seq<Sample>>)
    requires PerSegment(rig) > 0 && Flatten(p) == Flatten(q)
    ensures WriteAll(rig, FRESH, p).answer.Ok? <==> WriteAll(rig, FRESH, q).answer.Ok?
    ensures WriteAll(rig, FRESH, p).answer.Ok? ==> WriteAll(rig, FRESH, p) == WriteAll(rig, FRESH, q)
  {
    hide *;
    FromFresh(rig, p);
    FromFresh(rig, q);
  }

  /** The frames a finished recording is made of: the recording cut every 640 samples, all of
      it and nothing but silence after it. */
  lemma EveryFrameIsAudio(audio: seq<Sample>)
    ensures audio <= Padded(audio) == Flatten(AllFrames(audio))
    ensures |Padded(audio)| < |audio| + 640
    ensures forall i :: |audio| <= i < |Padded(audio)| ==> Padded(audio)[i] == SILENCE
    ensures forall k :: 0 <= k < |AllFrames(audio)| ==> |AllFrames(audio)[k]| == 640
  {
    CutFlatten(Padded(audio), FRAME_INTERLEAVED);
    CutCount(Padded(audio), FRAME_INTERLEAVED);
    forall k | 0 <= k < |AllFrames(audio)| ensures |AllFrames(audio)[k]| == FRAME_INTERLEAVED {
      CutPiece(Padded(audio), FRAME_INTERLEAVED, k);
    }
  }

  /** A finished recording put back together is a byte-exact copy of the one stream, whatever
      the pieces its audio arrived in. */
  lemma FinishedRecordingIsTheStream(rig: Rig, audio: seq<Sample>)
    requires PerSegment(rig) > 0
    ensures var frames := AllFrames(audio);
            var ended := Unfinished(rig, audio);
            && Finished.Ends(rig, frames, ended)
            && Flatten(FinalTape(rig, frames, ended).stored) == Render(rig, Finished.AllPages(rig, frames, ended))
            && PacketsOn(Finished.AllPages(rig, frames, ended))
               == (if frames == [] then [] else [rig.head, rig.tags])
                + seq(|frames|, i requires 0 <= i < |frames| => PacketAt(rig, frames, i))
  {
    FinishKeeps(rig, audio);
    Finished.SegmentsAreTheStream(rig, AllFrames(audio), Unfinished(rig, audio));
    Finished.EveryPacketOnce(rig, AllFrames(audio), Unfinished(rig, audio));
  }
}
