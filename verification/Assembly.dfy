/** Handing a recording over in parts: `measure` and `Parts` of the uploader crate, and
    the part arithmetic the server signs its slots with. */
module Assembly {
  import opened Prelude

  type Bytes = seq<byte>

  /** A vault recording: one entry per segment, `None` when it cannot be decrypted. */
  type Recording = seq<Option<Bytes>>

  const MAX_PARTS := 10_000

  predicate Readable(rec: Recording) {
    forall i :: 0 <= i < |rec| ==> rec[i].Some?
  }

  /** The plaintext of all segments, end to end. */
  function Plain(rec: Recording): Bytes
    requires Readable(rec)
  {
    if rec == [] then [] else rec[0].value + Plain(rec[1..])
  }

  lemma {:induction false} PlainAppend(a: Recording, b: Recording)
    requires Readable(a) && Readable(b)
    ensures Readable(a + b)
    ensures Plain(a + b) == Plain(a) + Plain(b)
  {
    if a == [] {
      assert a + b == b;
    } else {
      assert (a + b)[1..] == a[1..] + b;
      PlainAppend(a[1..], b);
    }
  }

  // ------------------------------------------------------------ what a cut is

  /** `data` cut every `size` bytes; only the last piece may be shorter. */
  function Cut<T>(data: seq<T>, size: nat): seq<seq<T>>
    requires size > 0
    decreases |data|
  {
    if data == [] then []
    else
      var n := Min(size, |data|);
      [data[..n]] + Cut(data[n..], size)
  }

  /** Ceiling division by the part size, with Python's floor written out; refused for an
      empty upload and beyond the store's ceiling. */
  function PartCountFor(size: int, partSize: nat): Result<nat, string>
    requires partSize > 0
  {
    if size <= 0 then Err("an upload must have a positive size")
    else
      var count := -((-size) / partSize);
      if count > MAX_PARTS then Err("too many parts") else Ok(count)
  }

  lemma CeilingStep(n: int, d: int)
    requires d > 0
    ensures -((-n) / d) == (n + d - 1) / d
    ensures n > d ==> (n + d - 1) / d == 1 + (n - d + d - 1) / d
    ensures 0 < n <= d ==> (n + d - 1) / d == 1
  {
    var q := (n + d - 1) / d;
    var r := (n + d - 1) % d;
    assert n + d - 1 == d * q + r;
    DivIs(-n, d, -q, d - 1 - r);
    if n > d { DivIs(n - d + d - 1, d, q - 1, r); }
    if 0 < n <= d { DivIs(n + d - 1, d, 1, n - 1); }
  }

  lemma DivIs(n: int, d: int, q: int, r: int)
    requires d > 0 && 0 <= r < d && n == d * q + r
    ensures n / d == q
  {
    var e := n / d - q;
    assert d * e == d * (n / d) - d * q;
    assert -d < d * e < d;
    assert e >= 1 ==> d * e >= d;
    assert e <= -1 ==> d * e <= -d;
  }

  /** The number of pieces is the number of slots the server signs. */
  lemma {:induction false} CutCount<T>(data: seq<T>, size: nat)
    requires size > 0
    ensures |Cut(data, size)| == (|data| + size - 1) / size
    decreases |data|
  {
    if data == [] {
      DivIs(size - 1, size, 0, size - 1);
    } else {
      var n := Min(size, |data|);
      CutCount(data[n..], size);
      CeilingStep(|data|, size);
      if |data| <= size {
        assert data[n..] == [];
      }
    }
  }

  lemma {:induction false} CutFlatten<T>(data: seq<T>, size: nat)
    requires size > 0
    ensures Flatten(Cut(data, size)) == data
    decreases |data|
  {
    if data != [] {
      var n := Min(size, |data|);
      CutFlatten(data[n..], size);
      var c := Cut(data, size);
      assert c[0] == data[..n] && c[1..] == Cut(data[n..], size);
      assert data == data[..n] + data[n..];
    }
  }

  /** Piece `k` is the `k`-th slice: full size unless it is the last, never empty. */
  lemma CutPiece<T>(data: seq<T>, size: nat, k: nat)
    requires size > 0 && k < |Cut(data, size)|
    ensures k * size < |data|
    ensures Cut(data, size)[k] == data[k * size..Min(k * size + size, |data|)]
    ensures k + 1 < |Cut(data, size)| ==> |Cut(data, size)[k]| == size
    ensures 0 < |Cut(data, size)[k]| <= size
  {
    hide Cut;
    CutPieceAt(data, size, k, k * size);
  }

  lemma {:induction false} CutPieceAt<T>(data: seq<T>, size: nat, k: nat, from: nat)
    requires size > 0 && k < |Cut(data, size)| && from == k * size
    ensures from < |data|
    ensures Cut(data, size)[k] == data[from..Min(from + size, |data|)]
    ensures k + 1 < |Cut(data, size)| ==> |Cut(data, size)[k]| == size
    decreases k
  {
    hide Cut;
    var n, rest := CutHead(data, size);
    if k == 0 {
      if 1 < |Cut(data, size)| {
        assert rest != [];
      }
    } else {
      TimesNext(k - 1, size);
      CutPieceAt(rest, size, k - 1, from - size);
      SliceOfRest(data, size, from - size);
    }
  }

  lemma CutHead<T>(data: seq<T>, size: nat) returns (n: nat, rest: seq<T>)
    requires size > 0 && Cut(data, size) != []
    ensures data != [] && n == Min(size, |data|) && rest == data[n..]
    ensures Cut(data, size) == [data[..n]] + Cut(rest, size)
    ensures rest == [] <==> Cut(rest, size) == []
  {
    n := Min(size, |data|);
    rest := data[n..];
  }

  lemma SliceOfRest<T>(data: seq<T>, size: nat, from: nat)
    requires from + size < |data|
    ensures var rest := data[size..];
            rest[from..Min(from + size, |rest|)] == data[from + size..Min(from + size + size, |data|)]
  {
  }

  lemma TimesNext(k: int, size: int)
    ensures (k + 1) * size == k * size + size
  {
  }

  /** The client's parts and the server's slots agree for every recording the server
      accepts: their number, and the slice each slot receives. */
  lemma SlotsMatchParts(data: Bytes, size: nat)
    requires size > 0
    ensures PartCountFor(|data|, size).Ok? ==> PartCountFor(|data|, size).value == |Cut(data, size)|
    ensures PartCountFor(|data|, size).Ok? <==> 0 < |Cut(data, size)| <= MAX_PARTS
    ensures Flatten(Cut(data, size)) == data
  {
    CutCount(data, size);
    CutFlatten(data, size);
    CeilingStep(|data|, size);
    if |data| > 0 {
      assert |Cut(data, size)| > 0;
    }
  }

  // ------------------------------------------------------------ the two passes

  datatype Measurement = Measurement(size: nat, digest: nat)

  /** One pass over the segments: size and digest of the plaintext, unless one is unreadable. */
  method Measure(rec: Recording, hash: Bytes -> nat) returns (r: Result<Measurement, string>)
    ensures r.Ok? <==> Readable(rec)
    ensures r.Ok? ==> r.value == Measurement(|Plain(rec)|, hash(Plain(rec)))
  {
    var size := 0;
    var fed: Bytes := [];
    var i := 0;
    while i < |rec|
      invariant 0 <= i <= |rec|
      invariant Readable(rec[..i])
      invariant fed == Plain(rec[..i]) && size == |fed|
    {
      if rec[i].None? {
        return Err("vault");
      }
      PlainAppend(rec[..i], [rec[i]]);
      assert rec[..i + 1] == rec[..i] + [rec[i]];
      assert Plain([rec[i]]) == rec[i].value + Plain([rec[i]][1..]);
      size := size + |rec[i].value|;
      fed := fed + rec[i].value;
      i := i + 1;
    }
    assert rec[..i] == rec;
    r := Ok(Measurement(size, hash(fed)));
  }

  // ------------------------------------------------------------ what the second pass yields

  /** The segments before the first that cannot be decrypted. */
  function Good(rec: Recording): (good: Recording)
    ensures Readable(good) && good <= rec
    ensures Readable(rec) <==> good == rec
  {
    if rec == [] || rec[0].None? then [] else [rec[0]] + Good(rec[1..])
  }

  /** The full pieces of `data`, without a shorter last one. */
  function FullCut(data: Bytes, size: nat): seq<Bytes>
    requires size > 0
  {
    if |data| < size then [] else [data[..size]] + FullCut(data[size..], size)
  }

  /** The parts a recording yields, and whether an unreadable segment then ends them. */
  datatype Handout = Handout(pieces: seq<Bytes>, breaks: bool)

  function HandoutOf(carry: Bytes, rec: Recording, size: nat): Handout
    requires size > 0
  {
    var bytes := carry + Plain(Good(rec));
    if Readable(rec) then Handout(Cut(bytes, size), false) else Handout(FullCut(bytes, size), true)
  }

  /** A part list that may stop short, but then says so. */
  predicate Fits(h: Handout, pieces: seq<Bytes>) {
    h.pieces <= pieces && (h.breaks || h.pieces == pieces)
  }

  lemma {:induction false} FullCutIsPrefix(data: Bytes, more: Bytes, size: nat)
    requires size > 0
    ensures FullCut(data, size) <= Cut(data + more, size)
    decreases |data|
  {
    if |data| >= size {
      FullCutIsPrefix(data[size..], more, size);
      assert (data + more)[..size] == data[..size];
      assert (data + more)[size..] == data[size..] + more;
    }
  }

  /** The recording as it reads once these segments have become unreadable. */
  function Damaged(rec: Recording, bad: set<nat>): (r: Recording)
    ensures |r| == |rec|
  {
    seq(|rec|, i requires 0 <= i < |rec| => if i in bad then None else rec[i])
  }

  predicate Unharmed(rec: Recording, bad: set<nat>) {
    forall i :: 0 <= i < |rec| ==> i !in bad
  }

  /** Damage shortens the list of parts and nothing else. */
  lemma DamagedFits(rec: Recording, bad: set<nat>, size: nat)
    requires Readable(rec) && size > 0
    ensures Readable(Damaged(rec, bad)) <==> Unharmed(rec, bad)
    ensures Unharmed(rec, bad) ==> Damaged(rec, bad) == rec
    ensures var h := HandoutOf([], Damaged(rec, bad), size);
            Fits(h, Cut(Plain(rec), size)) && (h.breaks <==> !Unharmed(rec, bad))
  {
    var again := Damaged(rec, bad);
    if Unharmed(rec, bad) {
      assert again == rec;
      assert [] + Plain(Good(again)) == Plain(rec);
    } else {
      var hit :| 0 <= hit < |rec| && hit in bad;
      assert again[hit].None?;
      var good := Good(again);
      forall i | 0 <= i < |good| ensures good[i] == rec[i] {
        assert good[i] == again[i] && good[i].Some?;
      }
      assert rec == good + rec[|good|..];
      PlainAppend(good, rec[|good|..]);
      assert [] + Plain(good) == Plain(good);
      FullCutIsPrefix(Plain(good), Plain(rec[|good|..]), size);
    }
  }

  /** Decrypting one more segment moves bytes from what is ahead into the carry. */
  lemma CarryOne(carry: Bytes, rec: Recording, size: nat)
    requires size > 0 && rec != [] && rec[0].Some?
    ensures HandoutOf(carry + rec[0].value, rec[1..], size) == HandoutOf(carry, rec, size)
  {
    assert Good(rec) == [rec[0]] + Good(rec[1..]);
    assert Good(rec)[1..] == Good(rec[1..]);
    Regroup(carry, rec[0].value, Plain(Good(rec[1..])));
  }

  /** Taking a part from a carry that holds one, or from the end of the recording. */
  lemma TakeOne(carry: Bytes, rec: Recording, size: nat)
    requires size > 0 && carry != [] && (|carry| >= size || rec == [])
    ensures var taken := Min(size, |carry|);
            var before, after := HandoutOf(carry, rec, size), HandoutOf(carry[taken..], rec, size);
            before.pieces == [carry[..taken]] + after.pieces && before.breaks == after.breaks
  {
    var taken := Min(size, |carry|);
    var bytes := carry + Plain(Good(rec));
    assert bytes[..taken] == carry[..taken];
    assert bytes[taken..] == carry[taken..] + Plain(Good(rec));
  }

  /** The recording, one part per call: segments are decrypted as they are needed. */
  class Parts {
    const rec: Recording
    const partSize: nat
    var nextSegment: nat
    var carry: Bytes

    ghost predicate Valid()
      reads this
    {
      partSize > 0 && nextSegment <= |rec|
    }

    /** What the calls from here on will answer. */
    ghost function Ahead(): Handout
      reads this
      requires Valid()
    {
      HandoutOf(carry, rec[nextSegment..], partSize)
    }

    constructor (rec: Recording, partSize: nat)
      ensures Valid() && this.rec == rec && this.partSize == Max(partSize, 1)
      ensures Ahead() == HandoutOf([], rec, this.partSize)
    {
      this.rec := rec;
      this.partSize := Max(partSize, 1);
      nextSegment := 0;
      carry := [];
      new;
      assert rec[0..] == rec;
    }

    /** One piece of what is ahead; `None` when nothing is left; an error, now and ever after,
        once a segment that is needed cannot be decrypted. */
    method NextPart() returns (r: Result<Option<Bytes>, string>)
      requires Valid()
      modifies this
      ensures Valid()
      ensures var ahead := old(Ahead());
              if ahead.pieces != [] then
                r == Ok(Some(ahead.pieces[0])) && Ahead() == Handout(ahead.pieces[1..], ahead.breaks)
              else
                Ahead() == ahead && (r.Err? <==> ahead.breaks) && (r.Ok? ==> r.value.None?)
    {
      var filled := Fill();
      if !filled {
        return Err("vault");
      }
      if carry == [] {
        return Ok(None);
      }
      TakeOne(carry, rec[nextSegment..], partSize);
      var taken := Min(partSize, |carry|);
      r := Ok(Some(carry[..taken]));
      carry := carry[taken..];
    }

    /** Decrypt until a whole part is there or the recording ends; `false` if it cannot go on. */
    method Fill() returns (ok: bool)
      requires Valid()
      modifies this
      ensures Valid() && Ahead() == old(Ahead())
      ensures ok ==> |carry| >= partSize || (rec[nextSegment..] == [] && Ahead() == Handout(Cut(carry, partSize), false))
      ensures !ok ==> Ahead() == Handout([], true)
    {
      while |carry| < partSize && nextSegment < |rec|
        invariant Valid()
        invariant Ahead() == old(Ahead())
        decreases |rec| - nextSegment
      {
        if rec[nextSegment].None? {
          assert rec[nextSegment..][0].None?;
          assert carry + [] == carry;
          return false;
        }
        CarryOne(carry, rec[nextSegment..], partSize);
        assert rec[nextSegment..][1..] == rec[nextSegment + 1..];
        carry := carry + rec[nextSegment].value;
        nextSegment := nextSegment + 1;
      }
      ok := true;
      if nextSegment == |rec| {
        assert rec[nextSegment..] == [] && carry + [] == carry;
      }
    }
  }

  /** Calling `NextPart` until it has no part to give: exactly the cut of the plaintext if the
      recording can be read, and otherwise the full parts before the segment that cannot. */
  method HandOver(rec: Recording, partSize: nat) returns (given: seq<Bytes>, broken: bool)
    requires partSize > 0
    ensures Handout(given, broken) == HandoutOf([], rec, partSize)
    ensures broken <==> !Readable(rec)
    ensures Readable(rec) ==> given == Cut(Plain(rec), partSize) && Flatten(given) == Plain(rec)
  {
    ghost var all := HandoutOf([], rec, partSize);
    var parts := new Parts(rec, partSize);
    given := [];
    var part := parts.NextPart();
    while part.Ok? && part.value.Some?
      invariant parts.Valid() && parts.rec == rec && parts.partSize == partSize
      invariant parts.Ahead().breaks == all.breaks
      invariant part.Ok? && part.value.Some? ==> all.pieces == given + [part.value.value] + parts.Ahead().pieces
      invariant !(part.Ok? && part.value.Some?) ==> all.pieces == given && (part.Err? <==> all.breaks)
      decreases |parts.Ahead().pieces| + (if part.Ok? && part.value.Some? then 1 else 0)
    {
      ghost var ahead := parts.Ahead().pieces;
      given := given + [part.value.value];
      part := parts.NextPart();
      if part.Ok? && part.value.Some? {
        assert ahead == [part.value.value] + parts.Ahead().pieces;
        Regroup(given, [part.value.value], parts.Ahead().pieces);
      }
    }
    broken := part.Err?;
    if Readable(rec) {
      assert [] + Plain(rec) == Plain(rec);
      CutFlatten(Plain(rec), partSize);
    }
  }
}
