/** Folding sub-second fragments of a transcript into their neighbours, and checking that a
    report's timestamps point at something. */
module Segments {
  import opened Prelude

  const MIN_SEGMENT_MS := 1000
  const TOLERANCE_MS := 1000

  datatype Utterance = Utterance(speaker: string, start: nat, end: nat, text: string)

  // ------------------------------------------------------------ text

  /** What `str.strip` removes. */
  predicate IsSpace(c: char) {
    || '\U{0009}' <= c <= '\U{000D}' || '\U{001C}' <= c <= '\U{0020}'
    || c in {'\U{0085}', '\U{00A0}', '\U{1680}', '\U{2028}', '\U{2029}', '\U{202F}', '\U{205F}', '\U{3000}'}
    || '\U{2000}' <= c <= '\U{200A}'
  }

  function StripLeft(s: string): string {
    if s != "" && IsSpace(s[0]) then StripLeft(s[1..]) else s
  }

  function StripRight(s: string): string {
    if s != "" && IsSpace(s[|s| - 1]) then StripRight(s[..|s| - 1]) else s
  }

  function Strip(s: string): string {
    StripRight(StripLeft(s))
  }

  /** The words of a text: its longest runs without a space. */
  function Words(s: string): seq<string> {
    if s == "" then []
    else if IsSpace(s[0]) then Words(s[1..])
    else
      var rest := Words(s[1..]);
      if |s| == 1 || IsSpace(s[1]) || rest == [] then [[s[0]]] + rest
      else [[s[0]] + rest[0]] + rest[1..]
  }

  lemma {:induction false} WordsJoin(a: string, b: string)
    ensures Words(a + " " + b) == Words(a) + Words(b)
    decreases |a|
  {
    var s := a + " " + b;
    assert IsSpace(' ');
    hide IsSpace;
    if a == "" {
      assert s[1..] == b && IsSpace(s[0]);
    } else {
      assert s[1..] == a[1..] + " " + b && s[0] == a[0];
      WordsJoin(a[1..], b);
      if |a| > 1 {
        assert s[1] == a[1];
        if !IsSpace(a[1]) {
          FirstWord(a[1..]);
        }
      } else {
        assert s[1] == ' ' && a[1..] == "";
      }
    }
  }

  lemma FirstWord(s: string)
    requires s != "" && !IsSpace(s[0])
    ensures Words(s) != []
  {
  }

  lemma {:induction false} WordsStripLeft(s: string)
    ensures Words(StripLeft(s)) == Words(s)
  {
    if s != "" && IsSpace(s[0]) {
      WordsStripLeft(s[1..]);
    }
  }

  lemma {:induction false} WordsDropSpace(s: string)
    requires s != "" && IsSpace(s[|s| - 1])
    ensures Words(s[..|s| - 1]) == Words(s)
  {
    if |s| > 1 {
      WordsDropSpace(s[1..]);
      assert s[1..][..|s| - 2] == s[..|s| - 1][1..];
      if |s| == 2 {
        assert s[..|s| - 1][1..] == "";
      } else {
        assert s[..|s| - 1][1] == s[1];
      }
    }
  }

  lemma {:induction false} WordsStripRight(s: string)
    ensures Words(StripRight(s)) == Words(s)
  {
    if s != "" && IsSpace(s[|s| - 1]) {
      WordsDropSpace(s);
      WordsStripRight(s[..|s| - 1]);
    }
  }

  /** What is left of a text starts and ends with something to read, if there is anything. */
  lemma {:induction false} StripTrims(s: string)
    ensures var t := Strip(s);
            t != "" ==> !IsSpace(t[0]) && !IsSpace(t[|t| - 1])
  {
    LeftTrims(s);
    RightTrims(StripLeft(s));
  }

  lemma {:induction false} LeftTrims(s: string)
    ensures StripLeft(s) != "" ==> !IsSpace(StripLeft(s)[0])
  {
    if s != "" && IsSpace(s[0]) {
      LeftTrims(s[1..]);
    }
  }

  lemma {:induction false} RightTrims(s: string)
    ensures var t := StripRight(s);
            t <= s && (t != "" ==> t[0] == s[0] && !IsSpace(t[|t| - 1]))
  {
    if s != "" && IsSpace(s[|s| - 1]) {
      RightTrims(s[..|s| - 1]);
    }
  }

  /** Twenty-nine characters count as space, and no other. */
  lemma SpacesAre(c: char)
    ensures IsSpace(c) <==>
              c in {'\t', '\n', '\U{000B}', '\U{000C}', '\r', '\U{001C}', '\U{001D}', '\U{001E}', '\U{001F}', ' ',
                    '\U{0085}', '\U{00A0}', '\U{1680}', '\U{2000}', '\U{2001}', '\U{2002}', '\U{2003}', '\U{2004}',
                    '\U{2005}', '\U{2006}', '\U{2007}', '\U{2008}', '\U{2009}', '\U{200A}', '\U{2028}', '\U{2029}',
                    '\U{202F}', '\U{205F}', '\U{3000}'}
  {
  }

  // ------------------------------------------------------------ the merge

  predicate Short(u: Utterance) {
    u.end - u.start < MIN_SEGMENT_MS
  }

  /** A fragment joins the utterance before it when they share a speaker. */
  predicate Joins(previous: Utterance, u: Utterance) {
    Short(u) && previous.speaker == u.speaker
  }

  function Absorb(previous: Utterance, u: Utterance): Utterance {
    previous.(end := u.end, text := Strip(previous.text + " " + u.text))
  }

  function Add(merged: seq<Utterance>, u: Utterance): seq<Utterance> {
    var n := |merged|;
    if n > 0 && Joins(merged[n - 1], u) then merged[..n - 1] + [Absorb(merged[n - 1], u)]
    else merged + [u]
  }

  function Merge(us: seq<Utterance>): seq<Utterance> {
    if us == [] then [] else Add(Merge(us[..|us| - 1]), us[|us| - 1])
  }

  method MergeMicroSegments(utterances: seq<Utterance>) returns (merged: seq<Utterance>)
    ensures merged == Merge(utterances)
  {
    merged := [];
    var i := 0;
    while i < |utterances|
      invariant 0 <= i <= |utterances| && merged == Merge(utterances[..i])
    {
      var u := utterances[i];
      assert utterances[..i + 1][..i] == utterances[..i];
      var short := u.end - u.start < MIN_SEGMENT_MS;
      if |merged| > 0 && short && merged[|merged| - 1].speaker == u.speaker {
        var previous := merged[|merged| - 1];
        merged := merged[|merged| - 1 := previous.(end := u.end, text := Strip(previous.text + " " + u.text))];
      } else {
        merged := merged + [u];
      }
      i := i + 1;
    }
    assert utterances[..i] == utterances;
  }

  /** Two neighbours become one exactly when they share a speaker and the second lasts less
      than a second; it then ends with the second and reads one text after the other. */
  lemma TwoBecomeOneIff(a: Utterance, b: Utterance)
    ensures var m := Merge([a, b]);
            && (|m| == 1 <==> a.speaker == b.speaker && b.end < b.start + 1000)
            && (|m| == 1 ==> m[0] == Utterance(a.speaker, a.start, b.end, Strip(a.text + " " + b.text)))
            && (|m| != 1 ==> m == [a, b])
  {
    hide Strip;
    assert [a, b][..1] == [a] && [a][..0] == [];
    assert Merge([a]) == [a];
  }

  // ------------------------------------------------------------ what it means: runs of utterances

  function AllWords(us: seq<Utterance>): seq<string> {
    if us == [] then [] else AllWords(us[..|us| - 1]) + Words(us[|us| - 1].text)
  }

  /** `m` stands for the run `g`: one speaker, from the first start to the last end, every
      word in order; and everything in the run after its first is short. */
  predicate StandsFor(m: Utterance, g: seq<Utterance>) {
    && g != []
    && m.start == g[0].start && m.end == g[|g| - 1].end
    && (forall i :: 0 <= i < |g| ==> g[i].speaker == m.speaker)
    && (forall i :: 1 <= i < |g| ==> Short(g[i]))
    && Words(m.text) == AllWords(g)
  }

  function AddRun(before: seq<seq<Utterance>>, merged: seq<Utterance>, u: Utterance): seq<seq<Utterance>>
    requires |before| == |merged|
  {
    var n := |merged|;
    if n > 0 && Joins(merged[n - 1], u) then before[..n - 1] + [before[n - 1] + [u]]
    else before + [[u]]
  }

  /** The runs, one per merged utterance. */
  function Runs(us: seq<Utterance>): (runs: seq<seq<Utterance>>)
    ensures |runs| == |Merge(us)|
  {
    if us == [] then []
    else AddRun(Runs(us[..|us| - 1]), Merge(us[..|us| - 1]), us[|us| - 1])
  }

  /** One more utterance. */
  lemma OneMore(us: seq<Utterance>) returns (front: seq<Utterance>, u: Utterance)
    requires us != []
    ensures front == us[..|us| - 1] && u == us[|us| - 1] && us == front + [u]
    ensures Merge(us) == Add(Merge(front), u)
    ensures Runs(us) == AddRun(Runs(front), Merge(front), u)
  {
    front, u := us[..|us| - 1], us[|us| - 1];
  }

  /** The merge cuts the transcript into consecutive runs and keeps one utterance for each:
      nothing is dropped or reordered, and no run mixes two speakers. */
  lemma {:induction false} MergeKeepsTheTranscript(us: seq<Utterance>)
    ensures Flatten(Runs(us)) == us
    ensures forall k :: 0 <= k < |Merge(us)| ==> StandsFor(Merge(us)[k], Runs(us)[k])
  {
    if us != [] {
      hide Merge, Runs, StandsFor, Add, AddRun;
      var front, u := OneMore(us);
      MergeKeepsTheTranscript(front);
      AddRunKeepsOrder(Runs(front), Merge(front), u);
      AddStandsFor(Runs(front), Merge(front), u);
    }
  }

  lemma AddRunKeepsOrder(before: seq<seq<Utterance>>, merged: seq<Utterance>, u: Utterance)
    requires |before| == |merged|
    ensures Flatten(AddRun(before, merged, u)) == Flatten(before) + [u]
  {
    hide Joins;
    var n := |merged|;
    if n > 0 && Joins(merged[n - 1], u) {
      FlattenSnoc(before[..n - 1], before[n - 1]);
      assert before == before[..n - 1] + [before[n - 1]];
      FlattenSnoc(before[..n - 1], before[n - 1] + [u]);
    } else {
      FlattenSnoc(before, [u]);
    }
  }

  lemma AddStandsFor(before: seq<seq<Utterance>>, merged: seq<Utterance>, u: Utterance)
    requires |before| == |merged|
    requires forall k :: 0 <= k < |merged| ==> StandsFor(merged[k], before[k])
    ensures var after, runs := Add(merged, u), AddRun(before, merged, u);
            |after| == |runs| && forall k :: 0 <= k < |after| ==> StandsFor(after[k], runs[k])
  {
    hide StandsFor, Absorb, Joins;
    var n := |merged|;
    if n > 0 && Joins(merged[n - 1], u) {
      AbsorbStandsFor(merged[n - 1], before[n - 1], u);
    } else {
      StandsForItself(u);
    }
  }

  lemma StandsForItself(u: Utterance)
    ensures StandsFor(u, [u])
  {
    assert [u][..0] == [];
    assert AllWords([u]) == AllWords([]) + Words(u.text);
  }

  lemma AbsorbStandsFor(m: Utterance, g: seq<Utterance>, u: Utterance)
    requires StandsFor(m, g) && Joins(m, u)
    ensures StandsFor(Absorb(m, u), g + [u])
  {
    assert (g + [u])[..|g|] == g;
    WordsJoin(m.text, u.text);
    WordsStripLeft(m.text + " " + u.text);
    WordsStripRight(StripLeft(m.text + " " + u.text));
  }

  lemma {:induction false} WordsOfRuns(us: seq<Utterance>, ms: seq<Utterance>, runs: seq<seq<Utterance>>)
    requires |ms| == |runs| && Flatten(runs) == us
    requires forall k :: 0 <= k < |ms| ==> StandsFor(ms[k], runs[k])
    ensures AllWords(ms) == AllWords(us)
    decreases |ms|
  {
    if ms != [] {
      var n := |ms| - 1;
      assert runs == runs[..n] + [runs[n]];
      FlattenSnoc(runs[..n], runs[n]);
      WordsOfRuns(Flatten(runs[..n]), ms[..n], runs[..n]);
      WordsAppend(Flatten(runs[..n]), runs[n]);
    }
  }

  lemma {:induction false} WordsAppend(a: seq<Utterance>, b: seq<Utterance>)
    ensures AllWords(a + b) == AllWords(a) + AllWords(b)
    decreases |b|
  {
    if b == [] {
      assert a + b == a;
    } else {
      hide Words, Merge, Runs;
      var front, last := b[..|b| - 1], b[|b| - 1];
      assert (a + b)[..|a + b| - 1] == a + front && (a + b)[|a + b| - 1] == last;
      WordsAppend(a, front);
      Regroup(AllWords(a), AllWords(front), Words(last.text));
    }
  }

  /** Every word survives, in order. */
  lemma EveryWordSurvives(us: seq<Utterance>)
    ensures AllWords(Merge(us)) == AllWords(us)
  {
    MergeKeepsTheTranscript(us);
    WordsOfRuns(us, Merge(us), Runs(us));
  }

  // ------------------------------------------------------------ merging twice

  predicate EndsAscend(us: seq<Utterance>) {
    forall i, j :: 0 <= i < j < |us| ==> us[i].end <= us[j].end
  }

  predicate StartsAscend(us: seq<Utterance>) {
    forall i, j :: 0 <= i < j < |us| ==> us[i].start <= us[j].start
  }

  /** Nothing left to join. */
  predicate Settled(ms: seq<Utterance>) {
    forall i :: 0 < i < |ms| ==> !Joins(ms[i - 1], ms[i])
  }

  lemma {:induction false} SettledStays(ms: seq<Utterance>)
    requires Settled(ms)
    ensures Merge(ms) == ms
  {
    if ms != [] {
      hide Joins, Merge, Runs;
      var front, u := OneMore(ms);
      forall i | 0 < i < |front| ensures !Joins(front[i - 1], front[i]) {
        assert !Joins(ms[i - 1], ms[i]);
      }
      SettledStays(front);
      if |ms| > 1 {
        assert ms[|ms| - 1] == u && front[|front| - 1] == ms[|ms| - 1 - 1];
        assert !Joins(ms[|ms| - 1 - 1], ms[|ms| - 1]);
      }
    }
  }

  /** With ends in order an utterance that was long enough to stand alone stays so. */
  lemma {:induction false} MergeSettles(us: seq<Utterance>)
    requires EndsAscend(us)
    ensures Settled(Merge(us))
    ensures us != [] ==> Merge(us) != [] && Merge(us)[|Merge(us)| - 1].end == us[|us| - 1].end
  {
    if us != [] {
      hide Merge, Runs;
      var front, u := OneMore(us);
      MergeSettles(front);
      if front != [] {
        assert front[|front| - 1].end <= u.end;
      }
      AddSettles(Merge(front), u);
    }
  }

  lemma AddSettles(merged: seq<Utterance>, u: Utterance)
    requires Settled(merged) && (merged != [] ==> merged[|merged| - 1].end <= u.end)
    ensures Settled(Add(merged, u))
  {
    hide Absorb;
    var n := |merged|;
    var after := Add(merged, u);
    if n > 0 && Joins(merged[n - 1], u) {
      AbsorbingLengthens(merged[n - 1], u);
    }
    forall i | 0 < i < |after| ensures !Joins(after[i - 1], after[i]) {
      if i < n {
        assert !Joins(merged[i - 1], merged[i]);
      }
    }
  }

  lemma AbsorbingLengthens(previous: Utterance, u: Utterance)
    requires previous.end <= u.end
    ensures Absorb(previous, u).speaker == previous.speaker
    ensures Short(Absorb(previous, u)) ==> Short(previous)
  {
  }

  lemma MergingTwiceChangesNothing(us: seq<Utterance>)
    requires EndsAscend(us)
    ensures Merge(Merge(us)) == Merge(us)
  {
    MergeSettles(us);
    SettledStays(Merge(us));
  }

  // ------------------------------------------------------------ which run an utterance goes into

  /** Utterance `i` starts a run: it is no short fragment of the speaker before it. */
  predicate Begins(us: seq<Utterance>, i: nat)
    requires i < |us|
  {
    i == 0 || !Joins(us[i - 1], us[i])
  }

  /** The first utterance of the run `i` is in. */
  function Head(us: seq<Utterance>, i: nat): (h: nat)
    requires i < |us|
    ensures h <= i
  {
    if Begins(us, i) then i else Head(us, i - 1)
  }

  /** The last one. */
  function Tail(us: seq<Utterance>, i: nat): (e: nat)
    requires i < |us|
    ensures i <= e < |us|
    decreases |us| - i
  {
    if i + 1 == |us| || Begins(us, i + 1) then i else Tail(us, i + 1)
  }

  /** The number of the run. */
  function Slot(us: seq<Utterance>, i: nat): nat
    requires i < |us|
  {
    if i == 0 then 0 else Slot(us, i - 1) + (if Begins(us, i) then 1 else 0)
  }

  lemma {:induction false} OneMoreAt(front: seq<Utterance>, u: Utterance, i: nat)
    requires i < |front|
    ensures Head(front + [u], i) == Head(front, i) && Slot(front + [u], i) == Slot(front, i)
  {
    if i > 0 {
      OneMoreAt(front, u, i - 1);
    }
  }

  /** The last run grows; the others are closed. */
  lemma {:induction false} TailGrows(front: seq<Utterance>, u: Utterance, i: nat)
    requires i < |front|
    ensures Tail(front + [u], i) == if Tail(front, i) == |front| - 1 && !Begins(front + [u], |front|) then |front|
                                    else Tail(front, i)
    decreases |front| - i
  {
    var us := front + [u];
    if i + 1 < |front| {
      assert Begins(us, i + 1) == Begins(front, i + 1);
      TailGrows(front, u, i + 1);
    } else {
      assert Tail(us, |front|) == |front|;
    }
  }

  lemma {:induction false} SlotsGrow(us: seq<Utterance>, i: nat, j: nat)
    requires i <= j < |us|
    ensures Slot(us, i) <= Slot(us, j)
    decreases j
  {
    if i < j {
      SlotsGrow(us, i, j - 1);
    }
  }

  lemma {:induction false} TailOfRun(us: seq<Utterance>, i: nat)
    requires i < |us|
    ensures var e := Tail(us, i);
            Slot(us, e) == Slot(us, i) && (e + 1 < |us| ==> Begins(us, e + 1))
    decreases |us| - i
  {
    if i + 1 < |us| && !Begins(us, i + 1) {
      TailOfRun(us, i + 1);
    }
  }

  lemma LastRun(us: seq<Utterance>, i: nat)
    requires i < |us|
    ensures Slot(us, i) == Slot(us, |us| - 1) <==> Tail(us, i) == |us| - 1
  {
    TailOfRun(us, i);
    var e := Tail(us, i);
    if e + 1 < |us| {
      SlotsGrow(us, e + 1, |us| - 1);
    }
  }

  /** Merged utterance `Slot(us, i)` is the one that `i` went into: it starts with the first
      of that run and ends with the last. */
  ghost predicate Placed(us: seq<Utterance>, ms: seq<Utterance>, i: nat)
    requires i < |us|
  {
    && Slot(us, i) < |ms|
    && ms[Slot(us, i)].speaker == us[i].speaker
    && ms[Slot(us, i)].start == us[Head(us, i)].start && ms[Slot(us, i)].end == us[Tail(us, i)].end
  }

  lemma {:induction false} MergedAt(us: seq<Utterance>)
    ensures forall i :: 0 <= i < |us| ==> Placed(us, Merge(us), i)
    ensures us != [] ==> |Merge(us)| == Slot(us, |us| - 1) + 1
  {
    if us != [] {
      hide Merge, Runs, Placed;
      var front, u := OneMore(us);
      MergedAt(front);
      if front == [] {
        FirstPlaced(u);
      } else {
        forall i | 0 <= i < |us| ensures Placed(us, Merge(us), i) {
          AddPlaces(front, Merge(front), u, i);
        }
        AddPlaces(front, Merge(front), u, |front|);
      }
    }
  }

  lemma FirstPlaced(u: Utterance)
    ensures Merge([u]) == [u] && Placed([u], [u], 0)
  {
    assert [u][..0] == [];
  }

  lemma AddPlaces(front: seq<Utterance>, ms: seq<Utterance>, u: Utterance, i: nat)
    requires front != [] && i <= |front| && |ms| == Slot(front, |front| - 1) + 1
    requires forall j :: 0 <= j < |front| ==> Placed(front, ms, j)
    ensures Placed(front + [u], Add(ms, u), i)
    ensures |Add(ms, u)| == Slot(front + [u], |front|) + 1
  {
    LastPlaced(front, ms, u);
    if i < |front| {
      EarlierPlaced(front, ms, u, i);
    }
  }

  /** Where the new utterance goes. */
  lemma {:induction false} LastPlaced(front: seq<Utterance>, ms: seq<Utterance>, u: Utterance)
    requires front != [] && |ms| == Slot(front, |front| - 1) + 1 && Placed(front, ms, |front| - 1)
    ensures Joins(ms[|ms| - 1], u) <==> !Begins(front + [u], |front|)
    ensures |Add(ms, u)| == Slot(front + [u], |front|) + 1
    ensures Placed(front + [u], Add(ms, u), |front|)
  {
    hide Absorb;
    var us, n := front + [u], |front|;
    OneMoreAt(front, u, n - 1);
    AbsorbedEnds(ms[|ms| - 1], u);
    assert us[n - 1] == front[n - 1] && us[n] == u;
    assert Tail(us, n) == n && Head(front, n - 1) < n;
    assert Slot(us, n) == Slot(us, n - 1) + (if Begins(us, n) then 1 else 0);
    assert Head(us, n) == if Begins(us, n) then n else Head(us, n - 1);
    hide Head, Tail, Slot;
    assert Joins(ms[|ms| - 1], u) <==> !Begins(us, n);
    hide Begins, Joins;
  }

  /** The others stay where they are. */
  lemma EarlierPlaced(front: seq<Utterance>, ms: seq<Utterance>, u: Utterance, i: nat)
    requires i < |front| && |ms| == Slot(front, |front| - 1) + 1 && Placed(front, ms, i)
    requires Joins(ms[|ms| - 1], u) <==> !Begins(front + [u], |front|)
    ensures Placed(front + [u], Add(ms, u), i)
  {
    var us := front + [u];
    OneMoreAt(front, u, i);
    TailGrows(front, u, i);
    LastRun(front, i);
    SlotsGrow(front, i, |front| - 1);
    AbsorbedEnds(ms[|ms| - 1], u);
    hide Absorb, Head, Tail, Slot, Begins, Joins;
    assert us[i] == front[i] && us[|front|] == u;
    assert us[Head(us, i)] == front[Head(front, i)];
    assert Tail(us, i) == Tail(front, i) ==> us[Tail(us, i)] == front[Tail(front, i)];
  }

  lemma AbsorbedEnds(m: Utterance, u: Utterance)
    ensures Absorb(m, u).start == m.start && Absorb(m, u).end == u.end && Absorb(m, u).speaker == m.speaker
  {
  }

  lemma {:induction false} SlotReached(us: seq<Utterance>, j: nat, k: nat) returns (i: nat)
    requires j < |us| && k <= Slot(us, j)
    ensures i <= j && Slot(us, i) == k
    decreases j
  {
    if Slot(us, j) == k {
      i := j;
    } else {
      i := SlotReached(us, j - 1, k);
    }
  }

  // ------------------------------------------------------------ what the merge still covers

  predicate Within(u: Utterance, m: Utterance) {
    m.start <= u.start && u.end <= m.end
  }

  lemma EndsReach(us: seq<Utterance>, i: nat)
    requires EndsAscend(us) && i < |us|
    ensures us[Head(us, i)].end <= us[i].end <= us[Tail(us, i)].end
  {
  }

  /** Every utterance lies inside the one that absorbed it. */
  ghost predicate Covered(us: seq<Utterance>) {
    forall i :: 0 <= i < |us| ==> Slot(us, i) < |Merge(us)| && Within(us[i], Merge(us)[Slot(us, i)])
  }

  /** No utterance starts before the first of its run. */
  predicate StartsInRuns(us: seq<Utterance>) {
    forall i :: 0 <= i < |us| ==> us[Head(us, i)].start <= us[i].start
  }

  /** None ends after the last. */
  predicate EndsInRuns(us: seq<Utterance>) {
    forall i :: 0 <= i < |us| ==> us[i].end <= us[Tail(us, i)].end
  }

  /** The merge covers the transcript exactly when every utterance starts and ends within its
      run; with ends in order, exactly when none starts before the first of its run. */
  lemma CoveredIff(us: seq<Utterance>)
    ensures Covered(us) <==> StartsInRuns(us) && EndsInRuns(us)
    ensures EndsAscend(us) ==> (Covered(us) <==> StartsInRuns(us))
  {
    hide Merge, Head, Tail, Slot;
    MergedAt(us);
    forall i | 0 <= i < |us|
      ensures Slot(us, i) < |Merge(us)|
      ensures Within(us[i], Merge(us)[Slot(us, i)])
              <==> us[Head(us, i)].start <= us[i].start && us[i].end <= us[Tail(us, i)].end
      ensures EndsAscend(us) ==> us[i].end <= us[Tail(us, i)].end
    {
      CoveredAt(us, Merge(us), i);
    }
    hide EndsAscend, Within, Placed;
  }

  lemma CoveredAt(us: seq<Utterance>, ms: seq<Utterance>, i: nat)
    requires i < |us| && Placed(us, ms, i)
    ensures Slot(us, i) < |ms|
    ensures Within(us[i], ms[Slot(us, i)])
            <==> us[Head(us, i)].start <= us[i].start && us[i].end <= us[Tail(us, i)].end
    ensures EndsAscend(us) ==> us[i].end <= us[Tail(us, i)].end
  {
    if EndsAscend(us) {
      EndsReach(us, i);
    }
  }

  lemma {:induction false} NoMoreThanBefore(us: seq<Utterance>)
    ensures |Merge(us)| <= |us|
  {
    if us != [] {
      NoMoreThanBefore(us[..|us| - 1]);
    }
  }

  // ------------------------------------------------------------ checking sources

  datatype Window = Window(start: nat, end: nat)

  function Windows(us: seq<Utterance>): seq<Window> {
    seq(|us|, i requires 0 <= i < |us| => Window(us[i].start, us[i].end))
  }

  predicate Points(t: nat, w: Window) {
    w.start - TOLERANCE_MS <= t <= w.end + TOLERANCE_MS
  }

  predicate PointsSomewhere(t: nat, windows: seq<Window>) {
    exists w :: w in windows && Points(t, w)
  }

  /** The timestamps that point nowhere, in order; without a transcript nothing is checked. */
  function Orphans(sources: seq<nat>, windows: seq<Window>): seq<nat> {
    if windows == [] || sources == [] then []
    else (if PointsSomewhere(sources[0], windows) then [] else [sources[0]]) + Orphans(sources[1..], windows)
  }

  /** A moment points at a window from a second before it to a second after. */
  lemma PointsWithinASecond(t: nat, windows: seq<Window>)
    ensures PointsSomewhere(t, windows)
            <==> exists i :: 0 <= i < |windows| && windows[i].start <= t + 1000 && t <= windows[i].end + 1000
  {
    if PointsSomewhere(t, windows) {
      var w :| w in windows && Points(t, w);
      var i :| 0 <= i < |windows| && windows[i] == w;
    }
    if i :| 0 <= i < |windows| && windows[i].start <= t + 1000 && t <= windows[i].end + 1000 {
      assert windows[i] in windows && Points(t, windows[i]);
    }
  }

  lemma {:induction false} OrphansPointNowhere(sources: seq<nat>, windows: seq<Window>)
    ensures Orphans(sources, windows) == [] <==>
              windows == [] || forall t :: t in sources ==> PointsSomewhere(t, windows)
  {
    if sources != [] {
      OrphansPointNowhere(sources[1..], windows);
      assert sources == [sources[0]] + sources[1..];
    }
  }

  /** The window of the run that utterance `e` is in. */
  function RunWindow(us: seq<Utterance>, e: nat): Window
    requires e < |us|
  {
    Window(us[Head(us, e)].start, us[Tail(us, e)].end)
  }

  predicate SomeRunReaches(us: seq<Utterance>, t: nat) {
    exists e :: 0 <= e < |us| && Points(t, RunWindow(us, e))
  }

  /** A moment is reached after the merge exactly when the window of some run reaches it. */
  lemma MergedReachIff(us: seq<Utterance>, t: nat)
    ensures PointsSomewhere(t, Windows(Merge(us))) <==> SomeRunReaches(us, t)
  {
    hide Merge, Points;
    MergedAt(us);
    var windows := Windows(Merge(us));
    if PointsSomewhere(t, windows) {
      NoMoreThanBefore(us);
      var w :| w in windows && Points(t, w);
      var k :| 0 <= k < |windows| && windows[k] == w;
      var e := SlotReached(us, |us| - 1, k);
      assert Placed(us, Merge(us), e);
      assert Points(t, RunWindow(us, e));
    }
    if SomeRunReaches(us, t) {
      var e :| 0 <= e < |us| && Points(t, RunWindow(us, e));
      assert Placed(us, Merge(us), e);
      assert windows[Slot(us, e)] == RunWindow(us, e);
    }
  }

  /** What an utterance reached and its own run does not, some other run reaches. */
  ghost predicate OthersReach(us: seq<Utterance>) {
    forall i, t: nat {:trigger Points(t, Windows(us)[i])} ::
      0 <= i < |us| && Points(t, Windows(us)[i])
      && (t < us[Head(us, i)].start - TOLERANCE_MS || us[Tail(us, i)].end + TOLERANCE_MS < t)
      ==> SomeRunReaches(us, t)
  }

  /** Every report accepted against the fragments is accepted against the merged transcript. */
  ghost predicate SourcesKept(us: seq<Utterance>) {
    forall sources :: Orphans(sources, Windows(us)) == [] ==> Orphans(sources, Windows(Merge(us))) == []
  }

  /** Merging turns no accepted report down exactly when every moment that an utterance reached
      and that lies outside the tolerance of its run is reached by another run. */
  lemma SourcesKeptIff(us: seq<Utterance>)
    ensures SourcesKept(us) <==> OthersReach(us)
  {
    hide Merge, Head, Tail, Points;
    if SourcesKept(us) {
      forall i, t: nat | 0 <= i < |us| && Points(t, Windows(us)[i])
        ensures SomeRunReaches(us, t)
      {
        assert Windows(us)[i] in Windows(us) && PointsSomewhere(t, Windows(us));
        assert forall s :: s in [t] ==> s == t;
        OrphansPointNowhere([t], Windows(us));
        OrphansPointNowhere([t], Windows(Merge(us)));
        assert t in [t];
        assert Orphans([t], Windows(Merge(us))) == [];
        MergedAt(us);
        MergedReachIff(us, t);
      }
    }
    if OthersReach(us) {
      forall sources: seq<nat> | Orphans(sources, Windows(us)) == []
        ensures Orphans(sources, Windows(Merge(us))) == []
      {
        OrphansPointNowhere(sources, Windows(us));
        OrphansPointNowhere(sources, Windows(Merge(us)));
        if us == [] {
          NoMoreThanBefore(us);
        } else {
          forall t | t in sources ensures PointsSomewhere(t, Windows(Merge(us))) {
            StillReached(us, t);
          }
        }
      }
    }
  }

  lemma StillReached(us: seq<Utterance>, t: nat)
    requires OthersReach(us) && PointsSomewhere(t, Windows(us))
    ensures PointsSomewhere(t, Windows(Merge(us)))
  {
    hide Merge, Head, Tail;
    var w :| w in Windows(us) && Points(t, w);
    var i :| 0 <= i < |us| && Windows(us)[i] == w;
    assert Points(t, Windows(us)[i]);
    assert Points(t, RunWindow(us, i)) || SomeRunReaches(us, t);
    MergedReachIff(us, t);
  }

  /** A transcript that the merge covers loses no report, and fragments that come in the order
      they start and end are covered. */
  lemma MergingKeepsSources(us: seq<Utterance>)
    ensures Covered(us) ==> SourcesKept(us)
    ensures EndsAscend(us) && StartsAscend(us) ==> SourcesKept(us)
  {
    CoveredIff(us);
    SourcesKeptIff(us);
    hide Merge, Head, Tail, SourcesKept, SomeRunReaches, Covered;
    if StartsInRuns(us) && EndsInRuns(us) {
      InRunsReach(us);
    }
  }

  lemma InRunsReach(us: seq<Utterance>)
    requires StartsInRuns(us) && EndsInRuns(us)
    ensures OthersReach(us)
  {
    hide Head, Tail, SomeRunReaches;
    forall i, t: nat | 0 <= i < |us| && Points(t, Windows(us)[i])
      ensures us[Head(us, i)].start - TOLERANCE_MS <= t <= us[Tail(us, i)].end + TOLERANCE_MS
    {
      assert us[Head(us, i)].start <= us[i].start && us[i].end <= us[Tail(us, i)].end;
    }
  }

  /** Ends in order alone are not enough: the fragment reaches further back than the run it
      joins, by less than a second, and the tolerance no longer reaches what it did. */
  lemma StartsMatter()
    ensures var us := [Utterance("A", 6900, 7000, "oui"), Utterance("A", 6500, 7200, "non")];
            && EndsAscend(us) && !StartsAscend(us)
            && Merge(us) == [Absorb(us[0], us[1])] && !Within(us[1], Merge(us)[0])
            && Orphans([5600], Windows(us)) == [] && Orphans([5600], Windows(Merge(us))) == [5600]
            && !OthersReach(us)
  {
    hide Merge, Absorb, Orphans, OthersReach, Covered;
    var a, b := Utterance("A", 6900, 7000, "oui"), Utterance("A", 6500, 7200, "non");
    MergeOfTwo(a, b);
    AbsorbedEnds(a, b);
    OnlyBefore();
    assert [a, b][0].start > [a, b][1].start;
    assert Windows([a, b]) == [Window(6900, 7000), Window(6500, 7200)];
    assert Windows([Absorb(a, b)]) == [Window(6900, 7200)];
    Uncovered([a, b], [5600]);
  }

  lemma OnlyBefore()
    ensures Orphans([5600], [Window(6900, 7000), Window(6500, 7200)]) == []
    ensures Orphans([5600], [Window(6900, 7200)]) == [5600]
  {
    var windows := [Window(6900, 7000), Window(6500, 7200)];
    OneSource(5600, windows);
    OneSource(5600, [Window(6900, 7200)]);
    hide Orphans;
    assert windows[1] in windows && Points(5600, windows[1]);
  }

  lemma Uncovered(us: seq<Utterance>, sources: seq<nat>)
    requires Orphans(sources, Windows(us)) == [] && Orphans(sources, Windows(Merge(us))) != []
    ensures !OthersReach(us)
  {
    SourcesKeptIff(us);
    hide Orphans, OthersReach, Merge;
  }

  lemma MergeOfTwo(a: Utterance, b: Utterance)
    requires Joins(a, b)
    ensures Merge([a, b]) == [Absorb(a, b)]
  {
    hide Absorb;
    assert [a, b][..1] == [a] && [a][..0] == [];
    assert Merge([a]) == [a];
  }

  lemma OneSource(t: nat, windows: seq<Window>)
    requires windows != []
    ensures Orphans([t], windows) == if PointsSomewhere(t, windows) then [] else [t]
  {
    assert [t][1..] == [];
    assert Orphans([], windows) == [];
  }

  /** What does hold with ends in order alone: a moment inside any utterance is accepted after
      the merge. A fragment is too short to reach a whole tolerance back. */
  lemma MomentsStayAccepted(us: seq<Utterance>, i: nat, t: nat)
    requires EndsAscend(us) && i < |us| && us[i].start <= t <= us[i].end
    requires forall n :: 0 <= n < |us| ==> us[n].start <= us[n].end
    ensures PointsSomewhere(t, Windows(Merge(us)))
  {
    hide Merge;
    EndsReach(us, i);
    assert Head(us, i) < i ==> Short(us[i]);
    assert Points(t, RunWindow(us, i));
    MergedReachIff(us, t);
  }
}
