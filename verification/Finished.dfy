/** What a finished recording is: segments that partition it exactly, whole pages that add up
    to one Ogg stream, positions that follow the samples, one end-of-stream flag at most. */
module Finished {
  import opened Prelude
  import opened Assembly
  import opened Recording
  import opened Tape

  // ------------------------------------------------------------ where segments begin and end

  function Count(rig: Rig, n: nat): nat
    requires PerSegment(rig) > 0
  {
    if n == 0 then 0 else (n - 1) / PerSegment(rig) + 1
  }

  /** The frame where segment `k` starts, or the end of the recording. */
  function Boundary(rig: Rig, n: nat, k: nat): nat {
    Min(First(rig, k), n)
  }

  lemma BoundariesAscend(rig: Rig, n: nat, k: nat)
    requires PerSegment(rig) > 0 && k < Count(rig, n)
    ensures Boundary(rig, n, k) == First(rig, k) < Boundary(rig, n, k + 1) <= n
    ensures Boundary(rig, n, k + 1) <= Boundary(rig, n, k) + PerSegment(rig)
    ensures k + 1 < Count(rig, n) ==> Boundary(rig, n, k + 1) == First(rig, k + 1) < n
    ensures k + 1 == Count(rig, n) ==> Boundary(rig, n, k + 1) == n && First(rig, k) == Settled(rig, n - 1)
  {
    var f := PerSegment(rig);
    var q := (n - 1) / f;
    NextFrame(n - 1, f);
    TimesNext(k, f);
    TimesLess(k, q, f);
    if k + 1 < Count(rig, n) {
      TimesLess(k + 1, q, f);
    }
  }

  lemma EvenCount(rig: Rig, n: nat)
    requires PerSegment(rig) > 0 && n % PerSegment(rig) == 0
    ensures Count(rig, n) == n / PerSegment(rig)
    ensures First(rig, Count(rig, n)) == n
  {
    if n > 0 {
      NextFrame(n - 1, PerSegment(rig));
    }
    NextFrame(n, PerSegment(rig));
  }

  /** A finished recording: nothing is held and no segment is open. */
  predicate Ends(rig: Rig, frames: seq<Frame>, ended: bool)
    requires PerSegment(rig) > 0
  {
    if ended then frames != [] else |frames| % PerSegment(rig) == 0
  }

  lemma SegmentCount(rig: Rig, frames: seq<Frame>, ended: bool)
    requires PerSegment(rig) > 0 && Ends(rig, frames, ended)
    ensures var t := FinalTape(rig, frames, ended);
            |t.segments| == |t.stored| == Count(rig, |frames|)
  {
    hide PerSegment;
    if ended {
      assert |frames[..|frames| - 1]| == |frames| - 1;
    } else {
      EvenCount(rig, |frames|);
    }
  }

  /** Record `k`, from the boundaries alone. */
  lemma RecordAt(rig: Rig, frames: seq<Frame>, ended: bool, k: nat)
    requires PerSegment(rig) > 0 && Ends(rig, frames, ended)
    requires k < Count(rig, |frames|) == |FinalTape(rig, frames, ended).segments|
    ensures var a := Boundary(rig, |frames|, k);
            var b := Boundary(rig, |frames|, k + 1);
            var record := FinalTape(rig, frames, ended).segments[k];
            && a <= b && record.index == k
            && record.samples == FRAME_SAMPLES * (b - a)
            && record.startMs == SamplesToMs(FRAME_SAMPLES * a)
            && record.durationMs == SamplesToMs(record.samples)
  {
    hide PerSegment, FullBytes, BytesOver, LastBytes, Mux, Stream, First, SamplesToMs;
    BoundariesAscend(rig, |frames|, k);
    if !ended {
      EvenCount(rig, |frames|);
    }
  }

  // ------------------------------------------------------------ the partition

  function Durations(segments: seq<Record>): nat {
    if segments == [] then 0 else Durations(segments[..|segments| - 1]) + segments[|segments| - 1].durationMs
  }

  function Samples(segments: seq<Record>): nat {
    if segments == [] then 0 else Samples(segments[..|segments| - 1]) + segments[|segments| - 1].samples
  }

  /** A whole number of frames is a whole number of milliseconds. */
  lemma FramesAreWholeMs(frames: nat)
    ensures SamplesToMs(FRAME_SAMPLES * frames) == 20 * frames
  {
  }

  /** Every segment but the last is full, and each begins where the one before it ends. */
  lemma SegmentsPartition(rig: Rig, frames: seq<Frame>, ended: bool)
    requires PerSegment(rig) > 0 && Ends(rig, frames, ended)
    ensures var s := FinalTape(rig, frames, ended).segments;
            && |s| == Count(rig, |frames|)
            && (forall k :: 0 <= k < |s| ==> s[k].index == k && 0 < s[k].samples <= FRAME_SAMPLES * PerSegment(rig))
            && (forall k :: 0 <= k < |s| - 1 ==> s[k].samples == FRAME_SAMPLES * PerSegment(rig))
            && (forall k :: 0 <= k < |s| ==> s[k].samples == 16 * s[k].durationMs)
            && (forall k :: 0 <= k < |s| - 1 ==> s[k + 1].startMs == s[k].startMs + s[k].durationMs)
            && (s != [] ==> s[0].startMs == 0)
  {
    hide FinalTape, PerSegment, Boundary, First;
    SegmentCount(rig, frames, ended);
    var s := FinalTape(rig, frames, ended).segments;
    forall k | 0 <= k < |s|
      ensures s[k].index == k && 0 < s[k].samples <= FRAME_SAMPLES * PerSegment(rig)
      ensures k < |s| - 1 ==> s[k].samples == FRAME_SAMPLES * PerSegment(rig)
      ensures s[k].samples == 16 * s[k].durationMs
      ensures k < |s| - 1 ==> s[k + 1].startMs == s[k].startMs + s[k].durationMs
    {
      SegmentShape(rig, frames, ended, k);
    }
    if s != [] {
      SegmentShape(rig, frames, ended, 0);
      StartsAtZero(rig, |frames|);
    }
  }

  lemma StartsAtZero(rig: Rig, n: nat)
    ensures Boundary(rig, n, 0) == 0
  {
  }

  lemma SegmentShape(rig: Rig, frames: seq<Frame>, ended: bool, k: nat)
    requires PerSegment(rig) > 0 && Ends(rig, frames, ended)
    requires k < Count(rig, |frames|) == |FinalTape(rig, frames, ended).segments|
    ensures var s := FinalTape(rig, frames, ended).segments;
            && s[k].index == k && 0 < s[k].samples <= FRAME_SAMPLES * PerSegment(rig)
            && (k < |s| - 1 ==> s[k].samples == FRAME_SAMPLES * PerSegment(rig))
            && s[k].samples == 16 * s[k].durationMs
            && s[k].startMs == 20 * Boundary(rig, |frames|, k)
            && (k < |s| - 1 ==> s[k + 1].startMs == s[k].startMs + s[k].durationMs)
  {
    hide FinalTape, PerSegment, Boundary, First, SamplesToMs;
    var n := |frames|;
    var a := Boundary(rig, n, k);
    var b := Boundary(rig, n, k + 1);
    BoundariesAscend(rig, n, k);
    RecordAt(rig, frames, ended, k);
    FramesAreWholeMs(a);
    FramesAreWholeMs(b);
    FramesAreWholeMs(b - a);
    if k + 1 < Count(rig, n) {
      RecordAt(rig, frames, ended, k + 1);
      TimesNextFirst(rig, k);
    }
  }

  lemma TimesNextFirst(rig: Rig, k: nat)
    ensures First(rig, k + 1) == First(rig, k) + PerSegment(rig)
  {
    TimesNext(k, PerSegment(rig));
  }

  /** The first `k` segments hold the samples before boundary `k`. */
  lemma {:induction false} SumsUpTo(rig: Rig, frames: seq<Frame>, ended: bool, k: nat)
    requires PerSegment(rig) > 0 && Ends(rig, frames, ended)
    requires k <= Count(rig, |frames|) == |FinalTape(rig, frames, ended).segments|
    ensures var s := FinalTape(rig, frames, ended).segments[..k];
            && Samples(s) == FRAME_SAMPLES * Boundary(rig, |frames|, k)
            && Durations(s) == 20 * Boundary(rig, |frames|, k)
  {
    hide FinalTape, PerSegment, Boundary, First, SamplesToMs;
    if k == 0 {
      StartsAtZero(rig, |frames|);
    } else {
      SumsUpTo(rig, frames, ended, k - 1);
      var s := FinalTape(rig, frames, ended).segments;
      assert s[..k][..k - 1] == s[..k - 1];
      RecordAt(rig, frames, ended, k - 1);
      FramesAreWholeMs(Boundary(rig, |frames|, k) - Boundary(rig, |frames|, k - 1));
    }
  }

  /** Nothing is lost to rounding: the segments' samples and durations add up to the
      manifest's, which are those of the padded recording. */
  lemma NothingLostToRounding(rig: Rig, frames: seq<Frame>, ended: bool)
    requires PerSegment(rig) > 0 && Ends(rig, frames, ended)
    ensures var t := FinalTape(rig, frames, ended);
            && t.total == FRAME_SAMPLES * |frames| == Samples(t.segments)
            && SamplesToMs(t.total) == 20 * |frames| == Durations(t.segments)
  {
    var t := FinalTape(rig, frames, ended);
    SegmentCount(rig, frames, ended);
    var count := Count(rig, |frames|);
    SumsUpTo(rig, frames, ended, count);
    assert t.segments[..count] == t.segments;
    FramesAreWholeMs(|frames|);
    if count > 0 {
      BoundariesAscend(rig, |frames|, count - 1);
    }
  }

  // ------------------------------------------------------------ the pages

  /** Every page of the recording. */
  function AllPages(rig: Rig, frames: seq<Frame>, ended: bool): seq<Page>
    requires PerSegment(rig) > 0 && Ends(rig, frames, ended)
  {
    Mux(rig, FinalStream(rig, frames, ended)).pages
  }

  /** The page where segment `k` starts. */
  function PageStart(rig: Rig, frames: seq<Frame>, ended: bool, k: nat): nat
    requires PerSegment(rig) > 0 && Ends(rig, frames, ended)
  {
    var n := |frames|;
    if k == 0 then 0
    else if Boundary(rig, n, k) == n then |AllPages(rig, frames, ended)|
    else |PagesAfter(rig, frames, Boundary(rig, n, k))|
  }

  lemma StreamOfPrefix(rig: Rig, frames: seq<Frame>, m: nat, n: nat)
    requires PerSegment(rig) > 0 && n <= m <= |frames| && (m == 0 ==> frames == [])
    ensures Stream(rig, frames[..m], n) == Stream(rig, frames, n)
  {
    forall i | 0 <= i < n
      ensures WrittenAt(rig, frames[..m], i) == WrittenAt(rig, frames, i)
    {
      assert frames[..m][..i + 1] == frames[..i + 1];
    }
  }

  /** What the first `n` packets produced is a prefix of the whole, and grows with `n`. */
  lemma PagesArePrefix(rig: Rig, frames: seq<Frame>, ended: bool, n: nat)
    requires PerSegment(rig) > 0 && Ends(rig, frames, ended) && n <= |frames|
    requires n < |frames| || !ended
    ensures PagesAfter(rig, frames, n) <= AllPages(rig, frames, ended)
  {
    hide Mux;
    if frames != [] {
      var t := Stream(rig, frames, n);
      var s := FinalStream(rig, frames, ended);
      assert s == t + s[|t|..];
      MuxGrows(rig, t, s[|t|..]);
    }
  }

  /** A boundary inside the recording is the end of a page that carries its position. */
  lemma BoundaryEndsAPage(rig: Rig, frames: seq<Frame>, n: nat)
    requires PerSegment(rig) > 0 && 0 < n <= |frames| && n % PerSegment(rig) == 0
    ensures var m := Mux(rig, Stream(rig, frames, n));
            && m.waiting == [] && m.pages != [] && m.pages[|m.pages| - 1].granule == FRAME_GRANULE * n
  {
    hide Mux, PerSegment;
    StreamGrows(rig, frames, n - 1);
    MarkedEndsThePage(rig, Stream(rig, frames, n));
  }

  /** Two markers end two different pages. */
  lemma LaterBoundaryLaterPage(rig: Rig, frames: seq<Frame>, a: nat, b: nat)
    requires PerSegment(rig) > 0 && a < b <= |frames| && b % PerSegment(rig) == 0
    ensures |PagesAfter(rig, frames, a)| < |PagesAfter(rig, frames, b)|
  {
    hide Mux, PerSegment;
    StreamGrows(rig, frames, b - 1);
    MarkedEndsThePage(rig, Stream(rig, frames, b));
    assert Stream(rig, frames, b)[..|Stream(rig, frames, b)| - 1] == Stream(rig, frames, b - 1);
    PagesGrow(rig, frames, a, b - 1);
  }

  lemma EndEndsThePage(rig: Rig, frames: seq<Frame>, ended: bool)
    requires PerSegment(rig) > 0 && Ends(rig, frames, ended) && frames != []
    ensures var m := Mux(rig, FinalStream(rig, frames, ended));
            && m.waiting == [] && m.pages != []
            && m.pages[|m.pages| - 1].granule == FRAME_GRANULE * |frames|
            && m.pages[|m.pages| - 1].last == ended
            && |PagesAfter(rig, frames, |frames| - 1)| < |m.pages|
  {
    hide Mux, PerSegment;
    var s := FinalStream(rig, frames, ended);
    StreamGrows(rig, frames, |frames| - 1);
    assert s[..|s| - 1] == Stream(rig, frames, |frames| - 1);
    MarkedEndsThePage(rig, s);
  }

  lemma FirstIsAMultiple(rig: Rig, k: nat)
    requires PerSegment(rig) > 0
    ensures First(rig, k) % PerSegment(rig) == 0
    ensures k > 0 ==> First(rig, k) > 0
  {
    var f := PerSegment(rig);
    DivIs(k * f, f, k, 0);
    if k > 0 {
      TimesLess(1, k, f);
    }
  }

  /** A segment is one or more whole pages, and the last of them carries the position of the
      segment's end: three times the samples so far (section 4 of RFC 7845). */
  lemma SegmentIsWholePages(rig: Rig, frames: seq<Frame>, ended: bool, k: nat)
    requires PerSegment(rig) > 0 && Ends(rig, frames, ended) && k < Count(rig, |frames|)
    ensures var pages := AllPages(rig, frames, ended);
            var from := PageStart(rig, frames, ended, k);
            var to := PageStart(rig, frames, ended, k + 1);
            && from < to <= |pages|
            && pages[to - 1].granule
               == GRANULE_PER_SAMPLE * FRAME_SAMPLES * Boundary(rig, |frames|, k + 1)
  {
    hide Mux, Stream, PerSegment, First, Count;
    var n := |frames|;
    BoundariesAscend(rig, n, k);
    EndEndsThePage(rig, frames, ended);
    var b := Boundary(rig, n, k + 1);
    if b < n {
      BoundaryInside(rig, n, k);
      FirstIsAMultiple(rig, k + 1);
      PagesArePrefix(rig, frames, ended, b);
      BoundaryEndsAPage(rig, frames, b);
      LaterBoundaryLaterPage(rig, frames, Boundary(rig, n, k), b);
    } else {
      PagesGrow(rig, frames, Boundary(rig, n, k), n - 1);
    }
  }

  lemma BoundaryInside(rig: Rig, n: nat, k: nat)
    requires Boundary(rig, n, k + 1) < n
    ensures Boundary(rig, n, k + 1) == First(rig, k + 1)
  {
  }

  /** Stored segment `k` is those pages, as bytes. */
  lemma StoredIsPages(rig: Rig, frames: seq<Frame>, ended: bool, k: nat)
    requires PerSegment(rig) > 0 && Ends(rig, frames, ended)
    requires k < Count(rig, |frames|) == |FinalTape(rig, frames, ended).stored|
    ensures PageStart(rig, frames, ended, k) <= PageStart(rig, frames, ended, k + 1) <= |AllPages(rig, frames, ended)|
    ensures FinalTape(rig, frames, ended).stored[k]
         == Render(rig, AllPages(rig, frames, ended)[PageStart(rig, frames, ended, k)..PageStart(rig, frames, ended, k + 1)])
  {
    hide Mux, Stream, PerSegment, First, Render;
    var n := |frames|;
    SegmentIsWholePages(rig, frames, ended, k);
    BoundariesAscend(rig, n, k);
    if ended && k + 1 == Count(rig, n) {
      LastStored(rig, frames);
      StartIsFirstPage(rig, frames, ended, k);
      var pages := AllPages(rig, frames, ended);
      var from := PageStart(rig, frames, ended, k);
      assert pages[from..|pages|] == pages[from..];
    } else {
      FullStored(rig, frames, ended, k);
    }
  }

  lemma StartIsFirstPage(rig: Rig, frames: seq<Frame>, ended: bool, k: nat)
    requires PerSegment(rig) > 0 && Ends(rig, frames, ended) && k < Count(rig, |frames|)
    ensures First(rig, k) < |frames|
    ensures PageStart(rig, frames, ended, k) == FirstPage(rig, frames, First(rig, k))
  {
    hide PagesAfter, AllPages, PerSegment;
    BoundariesAscend(rig, |frames|, k);
    FirstIsAMultiple(rig, k);
  }

  lemma LastStored(rig: Rig, frames: seq<Frame>)
    requires PerSegment(rig) > 0 && frames != []
    ensures var from := FirstPage(rig, frames, Settled(rig, |frames| - 1));
            && from <= |AllPages(rig, frames, true)|
            && LastBytes(rig, frames) == Render(rig, AllPages(rig, frames, true)[from..])
  {
    hide Mux, Stream, PerSegment, Render;
    PagesArePrefix(rig, frames, true, Settled(rig, |frames| - 1));
  }

  lemma FullStored(rig: Rig, frames: seq<Frame>, ended: bool, k: nat)
    requires PerSegment(rig) > 0 && Ends(rig, frames, ended)
    requires k < Count(rig, |frames|) == |FinalTape(rig, frames, ended).stored|
    requires ended ==> k + 1 < Count(rig, |frames|)
    ensures var from := PageStart(rig, frames, ended, k);
            var to := PageStart(rig, frames, ended, k + 1);
            from <= to <= |AllPages(rig, frames, ended)| &&
            FinalTape(rig, frames, ended).stored[k] == Render(rig, AllPages(rig, frames, ended)[from..to])
  {
    hide Mux, Stream, PerSegment, First, Render, FullBytes, FullRecords, LastBytes;
    var n := |frames|;
    BoundariesAscend(rig, n, k);
    var a := First(rig, k);
    var b := First(rig, k + 1);
    var m := if ended then n - 1 else n;
    if !ended { EvenCount(rig, n); }
    assert FinalTape(rig, frames, ended).stored[k] == FullBytes(rig, frames[..m])[k] by {
      assert frames[..n] == frames;
    }
    FullBytesAt(rig, frames[..m], k);
    StreamOfPrefix(rig, frames, m, a);
    StreamOfPrefix(rig, frames, m, b);
    SegmentIsWholePages(rig, frames, ended, k);
    PagesArePrefix(rig, frames, ended, b);
    PagesOfBoundary(rig, frames, ended, a, b);
    StartIsFirstPage(rig, frames, ended, k);
    assert PageStart(rig, frames, ended, k + 1) == |PagesAfter(rig, frames, b)|;
  }

  lemma PagesOfBoundary(rig: Rig, frames: seq<Frame>, ended: bool, a: nat, b: nat)
    requires PerSegment(rig) > 0 && Ends(rig, frames, ended) && a <= b <= |frames|
    requires PagesAfter(rig, frames, b) <= AllPages(rig, frames, ended)
    ensures FirstPage(rig, frames, a) <= |PagesAfter(rig, frames, b)|
    ensures PagesAfter(rig, frames, b)[FirstPage(rig, frames, a)..]
         == AllPages(rig, frames, ended)[FirstPage(rig, frames, a)..|PagesAfter(rig, frames, b)|]
  {
    PagesGrow(rig, frames, a, b);
  }

  /** The segments' bytes, end to end, are the one stream the muxer produced. */
  lemma SegmentsAreTheStream(rig: Rig, frames: seq<Frame>, ended: bool)
    requires PerSegment(rig) > 0 && Ends(rig, frames, ended)
    ensures Flatten(FinalTape(rig, frames, ended).stored) == Render(rig, AllPages(rig, frames, ended))
  {
    hide FinalTape, Mux, PerSegment;
    SegmentCount(rig, frames, ended);
    var stored := FinalTape(rig, frames, ended).stored;
    var count := Count(rig, |frames|);
    StreamUpTo(rig, frames, ended, count);
    assert stored[..count] == stored;
    if frames == [] {
      NoPages(rig, ended);
    } else {
      BoundariesAscend(rig, |frames|, count - 1);
      var pages := AllPages(rig, frames, ended);
      assert pages[..|pages|] == pages;
    }
  }

  lemma NoPages(rig: Rig, ended: bool)
    requires PerSegment(rig) > 0 && Ends(rig, [], ended)
    ensures AllPages(rig, [], ended) == []
  {
  }

  lemma {:induction false} StreamUpTo(rig: Rig, frames: seq<Frame>, ended: bool, k: nat)
    requires PerSegment(rig) > 0 && Ends(rig, frames, ended)
    requires k <= Count(rig, |frames|) == |FinalTape(rig, frames, ended).stored|
    ensures PageStart(rig, frames, ended, k) <= |AllPages(rig, frames, ended)|
    ensures Flatten(FinalTape(rig, frames, ended).stored[..k])
         == Render(rig, AllPages(rig, frames, ended)[..PageStart(rig, frames, ended, k)])
  {
    hide FinalTape, PerSegment, AllPages, Boundary;
    if k > 0 {
      hide *;
      StreamUpTo(rig, frames, ended, k - 1);
      StoredIsPages(rig, frames, ended, k - 1);
      OneMore(rig, FinalTape(rig, frames, ended).stored, AllPages(rig, frames, ended), k - 1,
              PageStart(rig, frames, ended, k - 1), PageStart(rig, frames, ended, k));
    }
  }

  lemma OneMore(rig: Rig, stored: seq<Bytes>, pages: seq<Page>, k: nat, from: nat, to: nat)
    requires k < |stored| && from <= to <= |pages|
    requires Flatten(stored[..k]) == Render(rig, pages[..from])
    requires stored[k] == Render(rig, pages[from..to])
    ensures Flatten(stored[..k + 1]) == Render(rig, pages[..to])
  {
    assert stored[..k + 1] == stored[..k] + [stored[k]];
    FlattenSnoc(stored[..k], stored[k]);
    assert pages[..to] == pages[..from] + pages[from..to];
    RenderAppend(rig, pages[..from], pages[from..to]);
  }

  /** One end-of-stream page, the last, if the recording ended inside a segment; none at all
      if it ended exactly where a full one did. */
  lemma OneEndAtMost(rig: Rig, frames: seq<Frame>, ended: bool, j: nat)
    requires PerSegment(rig) > 0 && Ends(rig, frames, ended)
    requires j < |AllPages(rig, frames, ended)|
    ensures AllPages(rig, frames, ended)[j].last <==> ended && j == |AllPages(rig, frames, ended)| - 1
    ensures AllPages(rig, frames, ended)[j].number == j
  {
    hide PerSegment;
    PagesAreNumbered(rig, FinalStream(rig, frames, ended));
    if ended {
      var before := Stream(rig, frames, |frames| - 1);
      UnmarkedStaysOpen(rig, before);
      var w := Written(PacketAt(rig, frames, |frames| - 1), EndStream, FRAME_GRANULE * |frames|);
      MuxSnoc(rig, before, w);
    } else {
      UnmarkedStaysOpen(rig, Stream(rig, frames, |frames|));
    }
  }

  /** The stream is the two headers, once, and then every packet in order. */
  lemma EveryPacketOnce(rig: Rig, frames: seq<Frame>, ended: bool)
    requires PerSegment(rig) > 0 && Ends(rig, frames, ended)
    ensures PacketsOn(AllPages(rig, frames, ended))
         == (if frames == [] then [] else [rig.head, rig.tags])
          + seq(|frames|, i requires 0 <= i < |frames| => PacketAt(rig, frames, i))
  {
    hide Mux, PerSegment;
    var s := FinalStream(rig, frames, ended);
    MuxKeepsPackets(rig, s);
    if frames == [] {
      NoPages(rig, ended);
    } else {
      EndEndsThePage(rig, frames, ended);
      assert PacketsOf(s) == [rig.head, rig.tags]
          + seq(|frames|, i requires 0 <= i < |frames| => PacketAt(rig, frames, i));
    }
  }
}
