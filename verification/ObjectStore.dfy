/** The object store of `app/storage.py`: multipart uploads that become one object, with
    every way a call can fail to come back. */
module ObjectStore {
  import opened Prelude
  import opened Assembly

  /** A storage key names the organization and the meeting. */
  datatype Key = AudioKey(organization: nat, meeting: nat)

  datatype Part = Part(bytes: Bytes, etag: nat)

  datatype Upload = Upload(key: Key, parts: map<nat, Part>)

  /** The part number and the tag the store answered with. */
  datatype Confirmed = Confirmed(number: nat, etag: nat)

  /** An open upload and how its slots are numbered: 1 to `count`. */
  datatype Ticket = Ticket(uploadId: nat, partSize: nat, count: nat)

  datatype StoreState = StoreState(
    objects: map<Key, Bytes>,
    uploads: map<nat, Upload>,
    nextUpload: nat,
    nextTag: nat)

  /** How one call to the store ends. A refusal is reported as a `StorageError`, a broken
      call as an exception nobody catches; either may or may not have taken effect. */
  datatype StoreFate = Answers | Refuses(applied: bool) | Breaks(applied: bool)

  const EMPTY_STORE := StoreState(map[], map[], 0, 0)

  function Applied(fate: StoreFate): bool {
    fate.Answers? || fate.applied
  }

  // ------------------------------------------------------------ what each call does

  function StartMultipart(s: StoreState, key: Key): StoreState {
    s.(uploads := s.uploads[s.nextUpload := Upload(key, map[])], nextUpload := s.nextUpload + 1)
  }

  /** A part sent to an open upload replaces whatever had that number. */
  function PutPart(s: StoreState, uploadId: nat, number: nat, bytes: Bytes): Option<StoreState> {
    if uploadId !in s.uploads then None
    else
      var upload := s.uploads[uploadId];
      var parts := upload.parts[number := Part(bytes, s.nextTag)];
      Some(s.(uploads := s.uploads[uploadId := upload.(parts := parts)], nextTag := s.nextTag + 1))
  }

  /** `sorted(etags, key=number)`: stable, by part number. */
  function SortByNumber(tags: seq<Confirmed>): seq<Confirmed> {
    if tags == [] then [] else Insert(tags[0], SortByNumber(tags[1..]))
  }

  function Insert(tag: Confirmed, sorted: seq<Confirmed>): seq<Confirmed> {
    if sorted == [] || tag.number <= sorted[0].number then [tag] + sorted
    else [sorted[0]] + Insert(tag, sorted[1..])
  }

  /** The listed parts end to end; refused when one is missing, was replaced since it was
      confirmed, or is not listed in ascending order. */
  function Assemble(parts: map<nat, Part>, tags: seq<Confirmed>): Option<Bytes> {
    if tags == [] then Some([])
    else if tags[0].number !in parts || parts[tags[0].number].etag != tags[0].etag then None
    else if |tags| > 1 && tags[1].number <= tags[0].number then None
    else
      var rest := Assemble(parts, tags[1..]);
      if rest.None? then None else Some(parts[tags[0].number].bytes + rest.value)
  }

  function Complete(s: StoreState, key: Key, uploadId: nat, tags: seq<Confirmed>): Option<StoreState> {
    if uploadId !in s.uploads || s.uploads[uploadId].key != key || tags == [] then None
    else
      var whole := Assemble(s.uploads[uploadId].parts, SortByNumber(tags));
      if whole.None? then None
      else Some(s.(objects := s.objects[key := whole.value], uploads := s.uploads - {uploadId}))
  }

  function Abort(s: StoreState, uploadId: nat): StoreState {
    s.(uploads := s.uploads - {uploadId})
  }

  /** How an abort ends: one for an upload the store does not have is refused at best. */
  function AbortFate(s: StoreState, uploadId: nat, fate: StoreFate): StoreFate {
    if fate.Answers? && uploadId !in s.uploads then Refuses(false) else fate
  }

  function Delete(s: StoreState, key: Key): StoreState {
    s.(objects := s.objects - {key})
  }

  /** A part that was sent again is confirmed by its new tag only. */
  lemma ReplacedIsRefused(s: StoreState, uploadId: nat, number: nat, first: Bytes, second: Bytes)
    requires uploadId in s.uploads
    ensures var once := PutPart(s, uploadId, number, first);
            && once.Some?
            && var twice := PutPart(once.value, uploadId, number, second);
               && twice.Some?
               && var parts := twice.value.uploads[uploadId].parts;
                  && Assemble(parts, [Confirmed(number, s.nextTag)]).None?
                  && Assemble(parts, [Confirmed(number, once.value.nextTag)]) == Some(second)
                  && parts.Keys == s.uploads[uploadId].parts.Keys + {number}
                  && forall n :: n in s.uploads[uploadId].parts && n != number ==> parts[n] == s.uploads[uploadId].parts[n]
  {
    assert second + [] == second;
  }

  // ------------------------------------------------------------ assembling a whole recording

  /** `tags` confirms the first `|tags|` parts, in order. */
  predicate InOrder(tags: seq<Confirmed>) {
    forall i :: 0 <= i < |tags| ==> tags[i].number == i + 1
  }

  lemma {:induction false} SortedAlready(tags: seq<Confirmed>)
    requires forall i :: 0 <= i < |tags| - 1 ==> tags[i].number < tags[i + 1].number
    ensures SortByNumber(tags) == tags
  {
    if tags != [] {
      var tail := tags[1..];
      forall i | 0 <= i < |tail| - 1 ensures tail[i].number < tail[i + 1].number {
        assert tags[i + 1].number < tags[i + 1 + 1].number;
      }
      SortedAlready(tail);
    }
  }

  /** Assembling from part `k + 1` on gives the pieces from `k` on. */
  lemma {:induction false} AssembleSuffix(
      parts: map<nat, Part>, tags: seq<Confirmed>, pieces: seq<Bytes>, k: nat)
    requires InOrder(tags) && |tags| == |pieces| && k <= |tags|
    requires forall i :: 0 <= i < |tags| && tags[i].number in parts ==>
               parts[tags[i].number].bytes == pieces[i]
    ensures Assemble(parts, tags[k..]).Some? ==>
              Assemble(parts, tags[k..]).value == Flatten(pieces[k..])
    ensures (forall i :: k <= i < |tags| ==>
              tags[i].number in parts && parts[tags[i].number].etag == tags[i].etag)
            <==> Assemble(parts, tags[k..]).Some?
    decreases |tags| - k
  {
    if k < |tags| {
      AssembleSuffix(parts, tags, pieces, k + 1);
      assert tags[k..][1..] == tags[k + 1..];
      assert pieces[k..][1..] == pieces[k + 1..];
      assert tags[k..][0] == tags[k];
      if k + 1 < |tags| {
        assert tags[k..][1] == tags[k + 1];
      }
    }
  }

  /** Completing an upload whose parts are the pieces of `data` stores `data`, and the store
      agrees to it exactly when every listed part is still the one that was confirmed. */
  lemma CompleteStoresTheData(
      s: StoreState, key: Key, uploadId: nat, tags: seq<Confirmed>, data: Bytes, size: nat)
    requires size > 0 && data != []
    requires InOrder(tags) && |tags| == |Cut(data, size)|
    requires uploadId in s.uploads && s.uploads[uploadId].key == key
    requires forall n :: n in s.uploads[uploadId].parts && 1 <= n <= |tags| ==>
               s.uploads[uploadId].parts[n].bytes == Cut(data, size)[n - 1]
    ensures Complete(s, key, uploadId, tags).Some? ==>
              Complete(s, key, uploadId, tags).value.objects == s.objects[key := data]
    ensures (forall i :: 0 <= i < |tags| ==>
              tags[i].number in s.uploads[uploadId].parts
              && s.uploads[uploadId].parts[tags[i].number].etag == tags[i].etag)
            <==> Complete(s, key, uploadId, tags).Some?
  {
    var parts := s.uploads[uploadId].parts;
    var pieces := Cut(data, size);
    SortedAlready(tags);
    forall i | 0 <= i < |tags| && tags[i].number in parts
      ensures parts[tags[i].number].bytes == pieces[i]
    {
      assert tags[i].number == i + 1;
    }
    AssembleSuffix(parts, tags, pieces, 0);
    assert tags[0..] == tags && pieces[0..] == pieces;
    CutFlatten(data, size);
  }
}
