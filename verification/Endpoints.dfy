/** Between a capture device and the mixer: the resampler's buffer and the bounded queue
    that drops rather than waits. */
module Endpoints {
  import opened Prelude
  import opened Recording
  import opened Tape

  const CHUNK := 1_024
  const COMPACT_THRESHOLD := 8_192

  /** A converter from one rate to the working rate: its answer to a chunk depends on every
      chunk it was ever given, and it may refuse one. */
  datatype Converter = Converter(rate: nat, convert: seq<seq<Sample>> -> Option<seq<Sample>>)

  /** What chunk `i` becomes: its conversion, or as much silence. */
  function Converted(c: Converter, chunks: seq<seq<Sample>>, i: nat): seq<Sample>
    requires c.rate > 0 && i < |chunks|
  {
    var answer := c.convert(chunks[..i + 1]);
    if answer.Some? then answer.value else Silence(CHUNK * SAMPLE_RATE / c.rate)
  }

  /** What the chunks after the first `from` become, end to end. */
  function Output(c: Converter, chunks: seq<seq<Sample>>, from: nat, until: nat): seq<Sample>
    requires c.rate > 0 && from <= until <= |chunks|
    decreases until
  {
    if from == until then [] else Output(c, chunks, from, until - 1) + Converted(c, chunks, until - 1)
  }

  lemma {:induction false} OutputKeeps(c: Converter, chunks: seq<seq<Sample>>, more: seq<Sample>, from: nat, until: nat)
    requires c.rate > 0 && from <= until <= |chunks|
    ensures Output(c, chunks + [more], from, until) == Output(c, chunks, from, until)
    decreases until
  {
    if from < until {
      OutputKeeps(c, chunks, more, from, until - 1);
      assert (chunks + [more])[..until] == chunks[..until];
    }
  }

  lemma {:induction false} OutputJoins(c: Converter, chunks: seq<seq<Sample>>, from: nat, middle: nat, until: nat)
    requires c.rate > 0 && from <= middle <= until <= |chunks|
    ensures Output(c, chunks, from, until) == Output(c, chunks, from, middle) + Output(c, chunks, middle, until)
    decreases until
  {
    if middle == until {
      assert Output(c, chunks, from, middle) + [] == Output(c, chunks, from, middle);
    } else {
      OutputJoins(c, chunks, from, middle, until - 1);
    }
  }

  /** Every chunk has its place in the output: what the converter made of it after all those
      before, or, if it refused, the silence it would have lasted. */
  lemma ChunkInItsPlace(c: Converter, chunks: seq<seq<Sample>>, i: nat)
    requires c.rate > 0 && i < |chunks|
    ensures var answer := c.convert(chunks[..i + 1]);
            Output(c, chunks, 0, |chunks|)
            == Output(c, chunks[..i], 0, i)
               + (match answer case Some(samples) => samples case None => Silence(1_024 * 16_000 / c.rate))
               + Output(c, chunks, i + 1, |chunks|)
  {
    OutputJoins(c, chunks, 0, i + 1, |chunks|);
    FrontIsSettled(c, chunks, i, i);
  }

  lemma {:induction false} FrontIsSettled(c: Converter, chunks: seq<seq<Sample>>, i: nat, until: nat)
    requires c.rate > 0 && until <= i <= |chunks|
    ensures Output(c, chunks[..i], 0, until) == Output(c, chunks, 0, until)
    decreases until
  {
    if until > 0 {
      FrontIsSettled(c, chunks, i, until - 1);
      assert chunks[..i][..until] == chunks[..until];
    }
  }

  /** So refusals do not shift the timeline: if what the converter answers lasts as long as
      what it was given, the whole output does, whichever chunks it refuses. */
  lemma {:induction false} TimelineHolds(c: Converter, chunks: seq<seq<Sample>>, until: nat)
    requires c.rate > 0 && until <= |chunks|
    requires forall i :: 0 < i <= |chunks| && c.convert(chunks[..i]).Some? ==>
               |c.convert(chunks[..i]).value| == 1_024 * 16_000 / c.rate
    ensures |Output(c, chunks, 0, until)| == until * (1_024 * 16_000 / c.rate)
    decreases until
  {
    if until > 0 {
      TimelineHolds(c, chunks, until - 1);
      var each := 1_024 * 16_000 / c.rate;
      assert |Converted(c, chunks, until - 1)| == each;
      assert (until - 1) * each + each == until * each;
    }
  }

  predicate WholeChunks(chunks: seq<seq<Sample>>) {
    forall i :: 0 <= i < |chunks| ==> |chunks[i]| == CHUNK
  }

  class MonoResampler {
    const converter: Converter
    /** Nothing to convert, or nothing to convert with. */
    const passthrough: bool
    var pending: seq<Sample>
    var head: nat
    var moved: nat
    /** Every chunk the converter was given: its whole state. */
    var given: seq<seq<Sample>>
    ghost var fed: seq<Sample>

    function Live(): seq<Sample>
      reads this
      requires head <= |pending|
    {
      pending[head..]
    }

    /** What was fed is the chunks that were converted and then what still waits; and the
        copies made so far never exceed what was fed less what the buffer holds. */
    ghost predicate Valid()
      reads this
    {
      && (!passthrough ==> converter.rate > 0)
      && head <= |pending| && moved + |pending| <= |fed|
      && WholeChunks(given) && Flatten(given) + Live() == fed
    }

    /** `built` tells whether the converter for this rate could be made. */
    constructor (converter: Converter, built: bool)
      ensures Valid() && head == 0 && fed == [] && given == [] && moved == 0
      ensures this.converter == converter
      ensures passthrough <==> converter.rate == SAMPLE_RATE || converter.rate == 0 || !built
    {
      this.converter := converter;
      passthrough := converter.rate == SAMPLE_RATE || converter.rate == 0 || !built;
      pending, head, moved, given, fed := [], 0, 0, [], [];
    }

    /** `output` with every whole chunk that the carried samples and `input` complete. */
    method Process(input: seq<Sample>, output: seq<Sample>) returns (r: seq<Sample>)
      requires Valid() && head == 0
      modifies this
      ensures Valid() && head == 0
      ensures passthrough ==> r == output + input && fed == old(fed) && given == old(given)
      ensures !passthrough ==>
                && fed == old(fed) + input && |pending| < CHUNK
                && old(given) <= given
                && r == output + Output(converter, given, |old(given)|, |given|)
    {
      if passthrough {
        return output + input;
      }
      ghost var before := Live();
      pending := pending + input;
      fed := fed + input;
      assert Live() == before + input;
      assert Flatten(given) + (before + input) == Flatten(given) + before + input;
      r := ConvertWholeChunks(output);
      Compact();
    }

    method ConvertWholeChunks(output: seq<Sample>) returns (r: seq<Sample>)
      requires Valid() && head == 0 && !passthrough
      modifies this`given, this`head
      ensures Valid() && |Live()| < CHUNK && (head == 0 || head >= CHUNK)
      ensures old(given) <= given && r == output + Output(converter, given, |old(given)|, |given|)
    {
      hide WholeChunks, Converted;
      r := output;
      while |pending| - head >= CHUNK
        invariant Valid() && old(given) <= given && (head == 0 || head >= CHUNK)
        invariant r == output + Output(converter, given, |old(given)|, |given|)
        decreases |pending| - head
      {
        ghost var chunks := given;
        r := ConvertOne(r);
        OutputKeeps(converter, chunks, given[|chunks|], |old(given)|, |chunks|);
        assert given == chunks + [given[|chunks|]];
      }
    }

    /** One chunk: refused or not, its duration is in the output. */
    method ConvertOne(output: seq<Sample>) returns (r: seq<Sample>)
      requires Valid() && |pending| - head >= CHUNK && !passthrough
      modifies this`given, this`head
      ensures Valid() && head == old(head) + CHUNK && |given| == |old(given)| + 1 && old(given) <= given
      ensures r == output + Converted(converter, given, |old(given)|)
    {
      var chunk := pending[head..head + CHUNK];
      ghost var before, live := given, Live();
      given := given + [chunk];
      head := head + CHUNK;
      assert live == chunk + Live();
      FlattenSnoc(before, chunk);
      assert Flatten(before) + live == Flatten(given) + Live();
      assert given[..|before| + 1] == given;
      var answer := converter.convert(given);
      r := output + if answer.Some? then answer.value else Silence(CHUNK * SAMPLE_RATE / converter.rate);
    }

    method Compact()
      requires Valid() && |Live()| < CHUNK && (head == 0 || head >= CHUNK)
      modifies this`pending, this`head, this`moved
      ensures Valid() && Live() == old(Live()) && head == 0
    {
      if head > 0 && (head >= |pending| - head || head >= COMPACT_THRESHOLD) {
        moved := moved + (|pending| - head);
        pending := pending[head..];
        head := 0;
      }
    }
  }

  /** The chunks a resampler converted are settled by the audio it was fed: neither how it was
      cut into calls nor when the buffer was compacted can change them. */
  lemma {:induction false} ChunksAreSettled(
      a: seq<seq<Sample>>, x: seq<Sample>, b: seq<seq<Sample>>, y: seq<Sample>)
    requires WholeChunks(a) && WholeChunks(b) && |x| < CHUNK && |y| < CHUNK
    requires Flatten(a) + x == Flatten(b) + y
    ensures a == b && x == y
    decreases |a|
  {
    SomeChunkIff(a, x);
    SomeChunkIff(b, y);
    if a != [] && b != [] {
      var fed := Flatten(a) + x;
      assert fed == a[0] + (Flatten(a[1..]) + x) && fed == b[0] + (Flatten(b[1..]) + y);
      assert a[0] == fed[..CHUNK] == b[0];
      assert Flatten(a[1..]) + x == fed[CHUNK..] == Flatten(b[1..]) + y;
      ChunksAreSettled(a[1..], x, b[1..], y);
      assert a == [a[0]] + a[1..] && b == [b[0]] + b[1..];
    } else {
      assert Flatten(a) + x == x && Flatten(b) + y == y;
    }
  }

  lemma SomeChunkIff(a: seq<seq<Sample>>, x: seq<Sample>)
    requires WholeChunks(a) && |x| < CHUNK
    ensures a != [] <==> |Flatten(a) + x| >= CHUNK
  {
    if a != [] {
      assert |Flatten(a)| == |a[0]| + |Flatten(a[1..])|;
    }
  }

  // ------------------------------------------------------------ the bounded queue

  datatype Offered = Taken | Dropped(first: bool) | Closed

  /** A queue of at most `capacity` items, with what was dropped at its door counted. */
  class BoundedSink<T> {
    const capacity: nat
    var queue: seq<T>
    var listening: bool
    var chunks: nat
    var frames: nat
    /** What the receiver already took. */
    ghost var received: seq<T>
    /** What was ever offered while the receiver was there, what of it was kept, and the audio
        in what was not. */
    ghost var offers: nat
    ghost var accepted: seq<T>
    ghost var lost: seq<nat>

    /** Memory is bounded, order is kept, and everything offered was either accepted or
        counted as lost, in audio as well as in messages. */
    ghost predicate Valid()
      reads this
    {
      && |queue| <= capacity
      && received + queue == accepted
      && offers == |accepted| + chunks
      && chunks == |lost| && frames == Total(lost)
    }

    constructor (capacity: nat)
      ensures Valid() && this.capacity == capacity && queue == [] && listening && chunks == 0 && offers == 0
    {
      this.capacity := capacity;
      queue, listening, chunks, frames := [], true, 0, 0;
      received, offers, accepted, lost := [], 0, [], [];
    }

    /** Taken, counted as dropped, or told that nobody listens; never a wait. */
    method Offer(item: T, worth: nat) returns (r: Offered)
      requires Valid()
      modifies this
      ensures Valid() && listening == old(listening) && received == old(received)
      ensures r == if !old(listening) then Closed
                   else if |old(queue)| < capacity then Taken else Dropped(old(chunks) == 0)
      ensures queue == if r == Taken then old(queue) + [item] else old(queue)
      ensures accepted == if r == Taken then old(accepted) + [item] else old(accepted)
      ensures frames == if r.Dropped? then old(frames) + worth else old(frames)
      ensures offers == if r == Closed then old(offers) else old(offers) + 1
    {
      if !listening {
        return Closed;
      }
      offers := offers + 1;
      if |queue| < capacity {
        queue := queue + [item];
        accepted := accepted + [item];
        assert received + queue == accepted;
        return Taken;
      }
      chunks := chunks + 1;
      frames := frames + worth;
      assert (lost + [worth])[..|lost|] == lost;
      lost := lost + [worth];
      r := Dropped(chunks == 1);
    }

    /** The other half takes what is waiting. */
    method Take() returns (r: Option<T>)
      requires Valid()
      modifies this
      ensures Valid() && chunks == old(chunks) && frames == old(frames) && accepted == old(accepted)
      ensures r.None? <==> old(queue) == []
      ensures r.Some? ==> old(queue) == [r.value] + queue && received == old(received) + [r.value]
      ensures r.None? ==> queue == [] && received == old(received)
    {
      if queue == [] {
        return None;
      }
      r := Some(queue[0]);
      ghost var all := received + queue;
      received := received + [queue[0]];
      queue := queue[1..];
      assert received + queue == all;
    }
  }

  function Total(xs: seq<nat>): nat {
    if xs == [] then 0 else Total(xs[..|xs| - 1]) + xs[|xs| - 1]
  }
}
