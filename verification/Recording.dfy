/** The recording a stretch of audio becomes: which frames the encoder is given, which
    packets go into the one Ogg stream, on which pages, and which pages make up which
    segment. Everything is a formula over the frames; `SegmentWriter` is proved to compute it. */
module Recording {
  import opened Prelude
  import opened Assembly

  /** An amplitude. Nothing but silence is ever looked at. */
  type Sample = int

  type Frame = seq<Sample>

  type Packet = Bytes

  const SILENCE: Sample := 0
  const SAMPLE_RATE := 16_000
  const FRAME_SAMPLES := 320
  const FRAME_INTERLEAVED := 640
  const FRAME_GRANULE := 960
  const GRANULE_PER_SAMPLE := 3

  // ------------------------------------------------------------ the Ogg stream

  datatype End = Normal | EndPage | EndStream

  /** One call to the muxer. */
  datatype Written = Written(packet: Packet, end: End, granule: nat)

  /** A page: the packets that end on it, the position after the last of them, and whether
      it closes the logical stream (section 6 of RFC 3533). */
  datatype Page = Page(number: nat, packets: seq<Packet>, granule: nat, last: bool)

  datatype Muxer = Muxer(pages: seq<Page>, waiting: seq<Packet>, granule: nat)

  /** What is taken as given: the codec, the muxer's page layout, how a page looks as bytes,
      the two header packets, and when the segment sink agrees to store. The codec and the
      sink answer by everything they were handed so far, so both may keep any state. */
  datatype Rig = Rig(
    codec: seq<Frame> -> Option<Packet>,
    fits: (seq<Packet>, Packet) -> bool,
    render: Page -> Bytes,
    sink: seq<Bytes> -> Option<string>,
    digest: Bytes -> nat,
    head: Packet, tags: Packet,
    segmentSamples: nat)

  function Flush(m: Muxer, last: bool): Muxer {
    Muxer(m.pages + [Page(|m.pages|, m.waiting, m.granule, last)], [], m.granule)
  }

  /** A packet that does not fit ends the page before it; an end marker ends the page after it. */
  function Push(rig: Rig, m: Muxer, w: Written): Muxer {
    var room := if m.waiting != [] && !rig.fits(m.waiting, w.packet) then Flush(m, false) else m;
    var added := Muxer(room.pages, room.waiting + [w.packet], w.granule);
    if w.end == Normal then added else Flush(added, w.end == EndStream)
  }

  function Mux(rig: Rig, ws: seq<Written>): Muxer {
    if ws == [] then Muxer([], [], 0) else Push(rig, Mux(rig, ws[..|ws| - 1]), ws[|ws| - 1])
  }

  function PacketsOn(pages: seq<Page>): seq<Packet> {
    if pages == [] then [] else PacketsOn(pages[..|pages| - 1]) + pages[|pages| - 1].packets
  }

  /** Pages as they land in a file. */
  function Render(rig: Rig, pages: seq<Page>): Bytes {
    if pages == [] then [] else Render(rig, pages[..|pages| - 1]) + rig.render(pages[|pages| - 1])
  }

  lemma MuxSnoc(rig: Rig, ws: seq<Written>, w: Written)
    ensures Mux(rig, ws + [w]) == Push(rig, Mux(rig, ws), w)
  {
    assert (ws + [w])[..|ws|] == ws;
  }

  /** What has been written never changes. */
  lemma {:induction false} MuxGrows(rig: Rig, a: seq<Written>, b: seq<Written>)
    ensures Mux(rig, a).pages <= Mux(rig, a + b).pages
    decreases |b|
  {
    if b == [] {
      assert a + b == a;
    } else {
      var front := b[..|b| - 1];
      MuxGrows(rig, a, front);
      assert a + b == (a + front) + [b[|b| - 1]];
      MuxSnoc(rig, a + front, b[|b| - 1]);
    }
  }

  function PacketsOf(ws: seq<Written>): seq<Packet> {
    seq(|ws|, i requires 0 <= i < |ws| => ws[i].packet)
  }

  /** No packet is lost, repeated or reordered on its way into pages. */
  lemma {:induction false} MuxKeepsPackets(rig: Rig, ws: seq<Written>)
    ensures PacketsOn(Mux(rig, ws).pages) + Mux(rig, ws).waiting == PacketsOf(ws)
  {
    if ws != [] {
      hide Push, PacketsOn, Mux, PacketsOf;
      var front := ws[..|ws| - 1];
      var w := ws[|ws| - 1];
      assert ws == front + [w];
      MuxKeepsPackets(rig, front);
      MuxSnoc(rig, front, w);
      PushKeepsPackets(rig, Mux(rig, front), w);
      PacketsOfSnoc(front, w);
    }
  }

  lemma PacketsOfSnoc(ws: seq<Written>, w: Written)
    ensures PacketsOf(ws + [w]) == PacketsOf(ws) + [w.packet]
  {
  }

  lemma PushKeepsPackets(rig: Rig, m: Muxer, w: Written)
    ensures var n := Push(rig, m, w);
            PacketsOn(n.pages) + n.waiting == PacketsOn(m.pages) + m.waiting + [w.packet]
  {
    var room := if m.waiting != [] && !rig.fits(m.waiting, w.packet) then Flush(m, false) else m;
    FlushKeepsPackets(m, false);
    var added := Muxer(room.pages, room.waiting + [w.packet], w.granule);
    FlushKeepsPackets(added, w.end == EndStream);
    assert PacketsOn(m.pages) + m.waiting + [w.packet] == PacketsOn(room.pages) + (room.waiting + [w.packet]);
  }

  lemma FlushKeepsPackets(m: Muxer, last: bool)
    ensures var n := Flush(m, last);
            PacketsOn(n.pages) + n.waiting == PacketsOn(m.pages) + m.waiting
  {
    var n := Flush(m, last);
    assert n.pages[..|m.pages|] == m.pages;
  }

  /** A marked packet leaves nothing waiting, and its page carries its position. */
  lemma MarkedEndsThePage(rig: Rig, ws: seq<Written>)
    requires ws != [] && ws[|ws| - 1].end != Normal
    ensures var m := Mux(rig, ws);
            && m.waiting == [] && m.pages != []
            && m.pages[|m.pages| - 1].granule == ws[|ws| - 1].granule
            && m.pages[|m.pages| - 1].last == (ws[|ws| - 1].end == EndStream)
    ensures |Mux(rig, ws).pages| > |Mux(rig, ws[..|ws| - 1]).pages|
  {
  }

  /** A stream without an end-of-stream packet has no end-of-stream page. */
  lemma {:induction false} UnmarkedStaysOpen(rig: Rig, ws: seq<Written>)
    requires forall i :: 0 <= i < |ws| ==> ws[i].end != EndStream
    ensures forall j :: 0 <= j < |Mux(rig, ws).pages| ==> !Mux(rig, ws).pages[j].last
  {
    if ws != [] {
      UnmarkedStaysOpen(rig, ws[..|ws| - 1]);
    }
  }

  /** Pages are numbered from zero without a gap. */
  lemma {:induction false} PagesAreNumbered(rig: Rig, ws: seq<Written>)
    ensures forall j :: 0 <= j < |Mux(rig, ws).pages| ==> Mux(rig, ws).pages[j].number == j
  {
    if ws != [] {
      PagesAreNumbered(rig, ws[..|ws| - 1]);
    }
  }

  // ------------------------------------------------------------ where pages begin and end

  /** These packets are those written from `start` on; each fits behind those before it, and
      none but the last is marked. */
  ghost predicate Laid(rig: Rig, ws: seq<Written>, start: nat, packets: seq<Packet>) {
    && packets != [] && start + |packets| <= |ws|
    && (forall k :: 0 <= k < |packets| ==> packets[k] == ws[start + k].packet)
    && (forall k :: 0 < k < |packets| ==> rig.fits(packets[..k], packets[k]))
    && (forall k :: start <= k < start + |packets| - 1 ==> ws[k].end == Normal)
  }

  /** A page goes on to a marked packet or to the last that fits, and has its position. */
  ghost predicate PageIs(rig: Rig, ws: seq<Written>, start: nat, p: Page) {
    && Laid(rig, ws, start, p.packets)
    && var next := start + |p.packets|;
       && p.granule == ws[next - 1].granule
       && (p.last <==> ws[next - 1].end == EndStream)
       && (ws[next - 1].end != Normal || (next < |ws| && !rig.fits(p.packets, ws[next].packet)))
  }

  /** How many packets the first `j` pages hold. */
  function Before(pages: seq<Page>, j: nat): nat
    requires j <= |pages|
  {
    if j == 0 then 0 else Before(pages, j - 1) + |pages[j - 1].packets|
  }

  lemma {:induction false} BeforeAppend(pages: seq<Page>, p: Page, j: nat)
    requires j <= |pages|
    ensures Before(pages + [p], j) == Before(pages, j)
  {
    if j > 0 {
      BeforeAppend(pages, p, j - 1);
    }
  }

  /** What a muxer holds: its pages, and an unfinished one that fits so far. */
  ghost predicate LaidOut(rig: Rig, ws: seq<Written>, m: Muxer) {
    && (forall j :: 0 <= j < |m.pages| ==> PageIs(rig, ws, Before(m.pages, j), m.pages[j]))
    && Before(m.pages, |m.pages|) + |m.waiting| == |ws|
    && (m.waiting != [] ==>
          && Laid(rig, ws, Before(m.pages, |m.pages|), m.waiting)
          && ws[|ws| - 1].end == Normal && m.granule == ws[|ws| - 1].granule)
  }

  lemma PageStays(rig: Rig, ws: seq<Written>, w: Written, start: nat, p: Page)
    requires PageIs(rig, ws, start, p)
    ensures PageIs(rig, ws + [w], start, p)
  {
  }

  /** The waiting packets become a page. */
  lemma FlushLays(rig: Rig, ws: seq<Written>, m: Muxer, last: bool)
    requires forall j :: 0 <= j < |m.pages| ==> PageIs(rig, ws, Before(m.pages, j), m.pages[j])
    requires PageIs(rig, ws, Before(m.pages, |m.pages|), Page(|m.pages|, m.waiting, m.granule, last))
    ensures var n := Flush(m, last);
            && n.waiting == []
            && (forall j :: 0 <= j < |n.pages| ==> PageIs(rig, ws, Before(n.pages, j), n.pages[j]))
            && Before(n.pages, |n.pages|) == Before(m.pages, |m.pages|) + |m.waiting|
  {
    hide PageIs, Before;
    var p := Page(|m.pages|, m.waiting, m.granule, last);
    var pages := m.pages + [p];
    forall j | 0 <= j < |pages| ensures PageIs(rig, ws, Before(pages, j), pages[j]) {
      BeforeAppend(m.pages, p, j);
      assert pages[j] == if j < |m.pages| then m.pages[j] else p;
    }
    BeforeAll(m.pages, p);
  }

  lemma BeforeAll(pages: seq<Page>, p: Page)
    ensures Before(pages + [p], |pages| + 1) == Before(pages, |pages|) + |p.packets|
  {
    BeforeAppend(pages, p, |pages|);
  }

  lemma PushLays(rig: Rig, ws: seq<Written>, w: Written)
    requires LaidOut(rig, ws, Mux(rig, ws))
    ensures LaidOut(rig, ws + [w], Push(rig, Mux(rig, ws), w))
  {
    hide Mux, PageIs, Before, Laid, Flush;
    var m, all := Mux(rig, ws), ws + [w];
    var full := m.waiting != [] && !rig.fits(m.waiting, w.packet);
    var room := if full then Flush(m, false) else m;
    RoomLays(rig, ws, w, m, full);
    var start := Before(room.pages, |room.pages|);
    OneMoreLaid(rig, ws, w, start, room.waiting);
    if w.end != Normal {
      var added := Muxer(room.pages, room.waiting + [w.packet], w.granule);
      PageEnds(rig, all, start, added.waiting, w.granule, |room.pages|, w.end == EndStream);
      FlushLays(rig, all, added, w.end == EndStream);
    }
  }

  /** Room is made by ending the page that is full. */
  lemma RoomLays(rig: Rig, ws: seq<Written>, w: Written, m: Muxer, full: bool)
    requires LaidOut(rig, ws, m) && (full <==> m.waiting != [] && !rig.fits(m.waiting, w.packet))
    ensures var room := if full then Flush(m, false) else m;
            && (forall j :: 0 <= j < |room.pages| ==> PageIs(rig, ws + [w], Before(room.pages, j), room.pages[j]))
            && Before(room.pages, |room.pages|) + |room.waiting| == |ws|
            && (room.waiting != [] ==>
                  && Laid(rig, ws, Before(room.pages, |room.pages|), room.waiting)
                  && ws[|ws| - 1].end == Normal && rig.fits(room.waiting, w.packet))
  {
    hide PageIs, Before;
    var all := ws + [w];
    forall j | 0 <= j < |m.pages| ensures PageIs(rig, all, Before(m.pages, j), m.pages[j]) {
      PageStays(rig, ws, w, Before(m.pages, j), m.pages[j]);
    }
    if full {
      var start := Before(m.pages, |m.pages|);
      LaidStays(rig, ws, w, start, m.waiting);
      hide Laid;
      PageEnds(rig, all, start, m.waiting, m.granule, |m.pages|, false);
      FlushLays(rig, all, m, false);
    }
  }

  lemma LaidStays(rig: Rig, ws: seq<Written>, w: Written, start: nat, packets: seq<Packet>)
    requires Laid(rig, ws, start, packets)
    ensures Laid(rig, ws + [w], start, packets)
  {
  }

  lemma PageEnds(rig: Rig, ws: seq<Written>, start: nat, packets: seq<Packet>, granule: nat, number: nat, last: bool)
    requires Laid(rig, ws, start, packets) && granule == ws[start + |packets| - 1].granule
    requires last <==> ws[start + |packets| - 1].end == EndStream
    requires || ws[start + |packets| - 1].end != Normal
             || (start + |packets| < |ws| && !rig.fits(packets, ws[start + |packets|].packet))
    ensures PageIs(rig, ws, start, Page(number, packets, granule, last))
  {
  }

  lemma OneMoreLaid(rig: Rig, ws: seq<Written>, w: Written, start: nat, waiting: seq<Packet>)
    requires start + |waiting| == |ws|
    requires waiting != [] ==> Laid(rig, ws, start, waiting) && ws[|ws| - 1].end == Normal && rig.fits(waiting, w.packet)
    ensures Laid(rig, ws + [w], start, waiting + [w.packet])
  {
    var more := waiting + [w.packet];
    forall k | 0 < k < |more| ensures rig.fits(more[..k], more[k]) {
      assert more[..k] == waiting[..k] && waiting[..|waiting|] == waiting;
    }
  }

  /** A page ends exactly where a packet is marked, or the next one does not fit; so the pages
      are settled by the packets, and each is as full as it can be. */
  lemma {:induction false} PageLayout(rig: Rig, ws: seq<Written>)
    ensures LaidOut(rig, ws, Mux(rig, ws))
  {
    if ws != [] {
      hide LaidOut, Push;
      var front, w := ws[..|ws| - 1], ws[|ws| - 1];
      assert ws == front + [w];
      PageLayout(rig, front);
      PushLays(rig, front, w);
      MuxSnoc(rig, front, w);
    } else {
      NothingLaid(rig);
    }
  }

  lemma NothingLaid(rig: Rig)
    ensures LaidOut(rig, [], Mux(rig, []))
  {
  }

  lemma {:induction false} RenderAppend(rig: Rig, a: seq<Page>, b: seq<Page>)
    ensures Render(rig, a + b) == Render(rig, a) + Render(rig, b)
    decreases |b|
  {
    if b == [] {
      assert a + b == a;
    } else {
      var front := b[..|b| - 1];
      RenderAppend(rig, a, front);
      assert (a + b)[..|a + b| - 1] == a + front;
      assert Render(rig, a) + (Render(rig, front) + rig.render(b[|b| - 1]))
          == Render(rig, a) + Render(rig, front) + rig.render(b[|b| - 1]);
    }
  }

  /** Every page is in the file once, at its place. */
  lemma PageInItsPlace(rig: Rig, pages: seq<Page>, j: nat)
    requires j < |pages|
    ensures Render(rig, pages) == Render(rig, pages[..j]) + rig.render(pages[j]) + Render(rig, pages[j + 1..])
  {
    var one := [pages[j]];
    assert pages == pages[..j] + one + pages[j + 1..];
    assert one[..0] == [] && [] + rig.render(pages[j]) == rig.render(pages[j]);
    RenderAppend(rig, pages[..j], one);
    RenderAppend(rig, pages[..j] + one, pages[j + 1..]);
  }

  // ------------------------------------------------------------ which packets, in which segment

  /** Samples in a full segment: five to ten seconds at 16 kHz, rounded down. */
  function SegmentSamples(seconds: real): (n: nat)
    ensures 80_000 <= n <= 160_000
    ensures seconds <= 5.0 ==> n == 80_000
    ensures seconds >= 10.0 ==> n == 160_000
    ensures 5.0 <= seconds <= 10.0 ==> n as real <= 16_000.0 * seconds < n as real + 1.0
  {
    var clamped := if seconds < 5.0 then 5.0 else if seconds > 10.0 then 10.0 else seconds;
    (clamped * 16_000.0).Floor
  }

  /** Frames in a full segment: the target length, rounded up to a whole frame. */
  function PerSegment(rig: Rig): (n: nat)
    ensures n * FRAME_SAMPLES >= rig.segmentSamples > (n - 1) * FRAME_SAMPLES || n == rig.segmentSamples == 0
  {
    (rig.segmentSamples + FRAME_SAMPLES - 1) / FRAME_SAMPLES
  }

  /** The packet of frame `i`; the encoder runs continuously through the recording. */
  function PacketAt(rig: Rig, frames: seq<Frame>, i: nat): Packet
    requires i < |frames|
  {
    var answer := rig.codec(frames[..i + 1]);
    if answer.Some? then answer.value else []
  }

  function EndOf(rig: Rig, i: nat): End
    requires PerSegment(rig) > 0
  {
    if (i + 1) % PerSegment(rig) == 0 then EndPage else Normal
  }

  /** The packet of frame `i` as the muxer receives it. */
  function WrittenAt(rig: Rig, frames: seq<Frame>, i: nat): Written
    requires PerSegment(rig) > 0 && i < |frames|
  {
    Written(PacketAt(rig, frames, i), EndOf(rig, i), FRAME_GRANULE * (i + 1))
  }

  function Headers(rig: Rig): seq<Written> {
    [Written(rig.head, EndPage, 0), Written(rig.tags, EndPage, 0)]
  }

  /** The stream after `n` packets: the two headers once, at the very front. */
  function Stream(rig: Rig, frames: seq<Frame>, n: nat): seq<Written>
    requires PerSegment(rig) > 0 && n <= |frames|
  {
    if |frames| == 0 then []
    else Headers(rig) + seq(n, i requires 0 <= i < n => WrittenAt(rig, frames, i))
  }

  lemma StreamGrows(rig: Rig, frames: seq<Frame>, n: nat)
    requires PerSegment(rig) > 0 && n < |frames|
    ensures Stream(rig, frames, n + 1) == Stream(rig, frames, n) + [WrittenAt(rig, frames, n)]
  {
  }

  lemma StreamKeeps(rig: Rig, frames: seq<Frame>, frame: Frame, n: nat)
    requires PerSegment(rig) > 0 && n <= |frames| && frames != []
    ensures Stream(rig, frames + [frame], n) == Stream(rig, frames, n)
  {
    forall i | 0 <= i < n
      ensures WrittenAt(rig, frames + [frame], i) == WrittenAt(rig, frames, i)
    {
      assert (frames + [frame])[..i + 1] == frames[..i + 1];
    }
  }

  /** What the first `n` packets have made the muxer produce. */
  function PagesAfter(rig: Rig, frames: seq<Frame>, n: nat): seq<Page>
    requires PerSegment(rig) > 0 && n <= |frames|
  {
    Mux(rig, Stream(rig, frames, n)).pages
  }

  lemma PagesGrow(rig: Rig, frames: seq<Frame>, a: nat, b: nat)
    requires PerSegment(rig) > 0 && a <= b <= |frames|
    ensures PagesAfter(rig, frames, a) <= PagesAfter(rig, frames, b)
  {
    if frames != [] {
      var s := Stream(rig, frames, b);
      var t := Stream(rig, frames, a);
      assert s == t + s[|t|..];
      MuxGrows(rig, t, s[|t|..]);
    }
  }
}
