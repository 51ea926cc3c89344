/** Grouping chapters into files of a minimum length, and the trim ranges of those files. */
module Split {

  datatype Chapter = Chapter(title: string, start: nat)

  /** Half-open, in milliseconds. */
  datatype Range = Range(start: nat, end: nat)

  /** Where chapter `i` starts; index `|chapters|` is the end of the audio. */
  function At(chapters: seq<Chapter>, total: nat, i: nat): nat
    requires i <= |chapters|
  {
    if i < |chapters| then chapters[i].start else total
  }

  /** Strictly increasing starts that end before the audio does. */
  predicate Increasing(chapters: seq<Chapter>, total: nat) {
    forall i, j :: 0 <= i < j <= |chapters| ==> At(chapters, total, i) < At(chapters, total, j)
  }

  function SatSub(a: nat, b: nat): nat { if a < b then 0 else a - b }

  // ---- partitions into consecutive runs ----

  predicate Rises(cuts: seq<nat>, i: nat)
    requires i + 1 < |cuts|
  {
    cuts[i] < cuts[i + 1]
  }

  /** `cuts` cuts `0..n` into nonempty runs. */
  predicate Cuts(cuts: seq<nat>, n: nat) {
    && cuts != [] && cuts[0] == 0 && cuts[|cuts| - 1] == n
    && (forall i :: 0 <= i < |cuts| - 1 ==> Rises(cuts, i))
  }

  /** Group `i` is the run of `chapters` between cuts `i` and `i + 1`. */
  predicate IsRun(chapters: seq<Chapter>, groups: seq<seq<Chapter>>, cuts: seq<nat>, i: nat)
    requires i < |groups| && i + 1 < |cuts|
  {
    cuts[i] < cuts[i + 1] <= |chapters| && groups[i] == chapters[cuts[i]..cuts[i + 1]]
  }

  ghost predicate Runs(chapters: seq<Chapter>, groups: seq<seq<Chapter>>, cuts: seq<nat>) {
    && |cuts| == |groups| + 1 && cuts[0] == 0
    && (forall i :: 0 <= i < |groups| ==> IsRun(chapters, groups, cuts, i))
  }

  /** The runs make up all of `chapters`. */
  ghost predicate Partition(chapters: seq<Chapter>, groups: seq<seq<Chapter>>, cuts: seq<nat>) {
    Runs(chapters, groups, cuts) && cuts[|groups|] == |chapters|
  }

  function Concat(groups: seq<seq<Chapter>>): seq<Chapter> {
    if groups == [] then [] else Concat(groups[..|groups| - 1]) + groups[|groups| - 1]
  }

  /** A partition into runs keeps every chapter, once, in order. */
  lemma {:induction false} PartitionKeepsAll(chapters: seq<Chapter>, groups: seq<seq<Chapter>>, cuts: seq<nat>)
    requires Runs(chapters, groups, cuts)
    ensures cuts[|groups|] <= |chapters| && Concat(groups) == chapters[..cuts[|groups|]]
    decreases |groups|
  {
    if groups != [] {
      var n := |groups| - 1;
      assert IsRun(chapters, groups, cuts, n);
      var init, initCuts := groups[..n], cuts[..n + 1];
      forall i | 0 <= i < n ensures IsRun(chapters, init, initCuts, i) {
        assert IsRun(chapters, groups, cuts, i);
      }
      PartitionKeepsAll(chapters, init, initCuts);
      assert chapters[..cuts[n + 1]] == chapters[..cuts[n]] + chapters[cuts[n]..cuts[n + 1]];
    }
  }

  lemma {:induction false} CutsAreWithin(cuts: seq<nat>, n: nat, i: nat)
    requires Cuts(cuts, n) && i < |cuts|
    ensures cuts[i] <= n
    decreases |cuts| - i
  {
    if i < |cuts| - 1 {
      assert Rises(cuts, i);
      CutsAreWithin(cuts, n, i + 1);
    }
  }

  /** The run from cut `i` lasts at least `min`. */
  predicate LongEnough(chapters: seq<Chapter>, total: nat, min: nat, cuts: seq<nat>, i: nat)
    requires i + 1 < |cuts|
  {
    cuts[i] < cuts[i + 1] <= |chapters| && Run(chapters, total, cuts[i], cuts[i + 1]) >= min
  }

  ghost predicate MeetsMinimum(chapters: seq<Chapter>, total: nat, min: nat, cuts: seq<nat>) {
    Cuts(cuts, |chapters|) && forall i :: 0 <= i < |cuts| - 1 ==> LongEnough(chapters, total, min, cuts, i)
  }

  function Run(chapters: seq<Chapter>, total: nat, i: nat, j: nat): int
    requires i <= |chapters| && j <= |chapters|
  {
    At(chapters, total, j) - At(chapters, total, i)
  }

  // ---- the greedy loop ----

  /** Where the loop starts measuring: the audio's beginning for the first group. */
  function Base(chapters: seq<Chapter>, total: nat, i: nat): nat
    requires i <= |chapters|
  {
    if i == 0 then 0 else At(chapters, total, i)
  }

  /** The cuts made so far: each the first boundary that is far enough. */
  ghost predicate Greedy(chapters: seq<Chapter>, total: nat, min: nat, cuts: seq<nat>) {
    && cuts != [] && cuts[0] == 0
    && (forall i :: 0 <= i < |cuts| ==> cuts[i] <= |chapters|)
    && (forall i :: 0 <= i < |cuts| - 1 ==> GreedyAt(chapters, total, min, cuts, i))
  }

  ghost predicate GreedyAt(chapters: seq<Chapter>, total: nat, min: nat, cuts: seq<nat>, i: nat)
    requires i + 1 < |cuts|
  {
    cuts[i] < cuts[i + 1] <= |chapters| && FirstFar(chapters, total, min, cuts[i], cuts[i + 1])
  }

  ghost predicate FirstFar(chapters: seq<Chapter>, total: nat, min: nat, from: nat, to: nat)
    requires from <= |chapters| && to <= |chapters|
  {
    && from < to && SatSub(At(chapters, total, to), Base(chapters, total, from)) >= min
    && NoneFar(chapters, total, min, from, to)
  }

  /** No boundary strictly between is far enough from `from`. */
  ghost predicate NoneFar(chapters: seq<Chapter>, total: nat, min: nat, from: nat, upto: nat)
    requires from <= |chapters| && upto <= |chapters| + 1
  {
    forall j :: from < j < upto ==> SatSub(At(chapters, total, j), Base(chapters, total, from)) < min
  }

  /** The runs a greedy pass ends with: a short tail joins the last full run. */
  function Closed(cuts: seq<nat>, n: nat): seq<nat>
    requires cuts != []
  {
    if cuts[|cuts| - 1] == n then cuts
    else if |cuts| == 1 then cuts + [n]
    else cuts[..|cuts| - 1] + [n]
  }

  /** One chapter per file. */
  method Singles(chapters: seq<Chapter>) returns (groups: seq<seq<Chapter>>, ghost cuts: seq<nat>)
    ensures Partition(chapters, groups, cuts) && |groups| == |chapters|
  {
    groups, cuts := [], [0];
    for i := 0 to |chapters|
      invariant |groups| == i && Runs(chapters, groups, cuts) && cuts[i] == i
    {
      ghost var was, wasCuts := groups, cuts;
      groups, cuts := groups + [[chapters[i]]], cuts + [i + 1];
      RunsGrow(chapters, was, wasCuts, [chapters[i]], i + 1);
    }
  }

  lemma RunsGrow(chapters: seq<Chapter>, groups: seq<seq<Chapter>>, cuts: seq<nat>, group: seq<Chapter>, to: nat)
    requires Runs(chapters, groups, cuts) && cuts[|groups|] < to <= |chapters| && group == chapters[cuts[|groups|]..to]
    ensures Runs(chapters, groups + [group], cuts + [to])
  {
    forall i | 0 <= i < |groups| + 1 ensures IsRun(chapters, groups + [group], cuts + [to], i) {
      if i < |groups| {
        assert IsRun(chapters, groups, cuts, i);
      }
    }
  }

  lemma GreedyGrows(chapters: seq<Chapter>, total: nat, min: nat, cuts: seq<nat>, to: nat)
    requires Greedy(chapters, total, min, cuts) && to <= |chapters|
    requires FirstFar(chapters, total, min, cuts[|cuts| - 1], to)
    ensures Greedy(chapters, total, min, cuts + [to])
  {
    var more := cuts + [to];
    forall i | 0 <= i < |more| - 1 ensures GreedyAt(chapters, total, min, more, i) {
      if i < |cuts| - 1 {
        assert GreedyAt(chapters, total, min, cuts, i);
      }
    }
  }

  /** `current` runs from the last greedy cut up to chapter `idx`. */
  ghost predicate Progress(chapters: seq<Chapter>, total: nat, min: nat, idx: nat, groups: seq<seq<Chapter>>,
                           greedy: seq<nat>, current: seq<Chapter>, currentStart: nat)
  {
    && Runs(chapters, groups, greedy) && Greedy(chapters, total, min, greedy)
    && greedy[|groups|] <= idx <= |chapters| && current == chapters[greedy[|groups|]..idx]
    && currentStart == Base(chapters, total, greedy[|groups|])
    && NoneFar(chapters, total, min, greedy[|groups|], idx + 1)
  }

  /** The loop body cuts exactly when the next boundary is far enough. */
  lemma ProgressStep(chapters: seq<Chapter>, total: nat, min: nat, idx: nat, groups: seq<seq<Chapter>>,
                     greedy: seq<nat>, current: seq<Chapter>, currentStart: nat)
    requires Progress(chapters, total, min, idx, groups, greedy, current, currentStart) && idx < |chapters| && min > 0
    ensures var next := At(chapters, total, idx + 1);
            var longer := current + [chapters[idx]];
            if SatSub(next, currentStart) >= min
            then Progress(chapters, total, min, idx + 1, groups + [longer], greedy + [idx + 1], [], next)
            else Progress(chapters, total, min, idx + 1, groups, greedy, longer, currentStart)
  {
    var longer := current + [chapters[idx]];
    assert longer == chapters[greedy[|groups|]..idx + 1];
    if SatSub(At(chapters, total, idx + 1), currentStart) >= min {
      RunsGrow(chapters, groups, greedy, longer, idx + 1);
      GreedyGrows(chapters, total, min, greedy, idx + 1);
    }
  }

  /** `group_chapters`. `greedy` are the cuts the loop makes, `cuts` those of the result. */
  method GroupChapters(chapters: seq<Chapter>, total: nat, min: nat)
      returns (groups: seq<seq<Chapter>>, ghost cuts: seq<nat>, ghost greedy: seq<nat>)
    ensures Partition(chapters, groups, cuts)
    ensures min == 0 || |chapters| <= 1 ==> |groups| == |chapters|
    ensures min > 0 && |chapters| > 1 ==>
              && Greedy(chapters, total, min, greedy) && cuts == Closed(greedy, |chapters|)
              && NoneFar(chapters, total, min, greedy[|greedy| - 1], |chapters| + 1)
  {
    if min == 0 || |chapters| <= 1 {
      groups, cuts := Singles(chapters);
      greedy := [];
      return;
    }
    var current: seq<Chapter> := [];
    var currentStart := 0;
    groups, greedy := [], [0];
    for idx := 0 to |chapters|
      invariant Progress(chapters, total, min, idx, groups, greedy, current, currentStart)
    {
      ProgressStep(chapters, total, min, idx, groups, greedy, current, currentStart);
      current := current + [chapters[idx]];
      var nextStart := At(chapters, total, idx + 1);
      var duration := SatSub(nextStart, currentStart);
      if duration >= min {
        groups, greedy := groups + [current], greedy + [idx + 1];
        current, currentStart := [], nextStart;
      }
    }
    cuts := Closed(greedy, |chapters|);
    TailJoins(chapters, groups, greedy, current);
    if current != [] {
      if groups != [] {
        groups := groups[|groups| - 1 := groups[|groups| - 1] + current];
      } else {
        groups := [current];
      }
    }
  }

  /** A short tail joins the last group, or is the only one. */
  lemma TailJoins(chapters: seq<Chapter>, groups: seq<seq<Chapter>>, cuts: seq<nat>, tail: seq<Chapter>)
    requires Runs(chapters, groups, cuts) && cuts[|groups|] <= |chapters| && tail == chapters[cuts[|groups|]..]
    ensures Partition(chapters,
                      if tail == [] then groups
                      else if groups == [] then [tail]
                      else groups[|groups| - 1 := groups[|groups| - 1] + tail],
                      Closed(cuts, |chapters|))
  {
    if tail != [] && groups != [] {
      var n := |groups| - 1;
      var joined, closed := groups[n := groups[n] + tail], Closed(cuts, |chapters|);
      assert IsRun(chapters, groups, cuts, n);
      assert groups[n] + tail == chapters[cuts[n]..];
      forall i | 0 <= i <= n ensures IsRun(chapters, joined, closed, i) {
        assert IsRun(chapters, groups, cuts, i);
      }
    }
  }

  // ---- the minimum ----

  /** What `GroupChapters` promises about its cuts when it does group. */
  ghost predicate Grouped(chapters: seq<Chapter>, total: nat, min: nat, cuts: seq<nat>, greedy: seq<nat>) {
    && Greedy(chapters, total, min, greedy) && cuts == Closed(greedy, |chapters|)
    && NoneFar(chapters, total, min, greedy[|greedy| - 1], |chapters| + 1)
  }

  lemma {:induction false} GreedyRises(chapters: seq<Chapter>, total: nat, min: nat, cuts: seq<nat>)
    requires Greedy(chapters, total, min, cuts)
    ensures forall i :: 0 <= i < |cuts| - 1 ==> Rises(cuts, i)
  {
    forall i | 0 <= i < |cuts| - 1 ensures Rises(cuts, i) {
      assert GreedyAt(chapters, total, min, cuts, i);
    }
  }

  lemma {:induction false} GreedyBound(chapters: seq<Chapter>, total: nat, min: nat, cuts: seq<nat>, k: nat)
    requires Greedy(chapters, total, min, cuts) && k < |cuts|
    ensures k <= cuts[k]
  {
    if k > 0 {
      GreedyBound(chapters, total, min, cuts, k - 1);
      assert GreedyAt(chapters, total, min, cuts, k - 1);
    }
  }

  /** Every group but the first meets the minimum; so does the first when its
      first chapter is at the beginning of the audio. */
  lemma GroupsMeet(chapters: seq<Chapter>, total: nat, min: nat, cuts: seq<nat>, greedy: seq<nat>, i: nat)
    requires Increasing(chapters, total) && min > 0 && Grouped(chapters, total, min, cuts, greedy)
    requires chapters != [] && |greedy| > 1 && i < |cuts| - 1 && (i > 0 || chapters[0].start == 0)
    ensures LongEnough(chapters, total, min, cuts, i)
  {
    GreedyBound(chapters, total, min, greedy, i);
    assert GreedyAt(chapters, total, min, greedy, i);
    assert cuts[i] == greedy[i] && greedy[i + 1] <= cuts[i + 1] <= |chapters|;
    assert At(chapters, total, greedy[i + 1]) <= At(chapters, total, cuts[i + 1]);
  }

  lemma ClosedCuts(chapters: seq<Chapter>, total: nat, min: nat, cuts: seq<nat>, greedy: seq<nat>)
    requires Grouped(chapters, total, min, cuts, greedy) && chapters != []
    ensures Cuts(cuts, |chapters|)
  {
    GreedyRises(chapters, total, min, greedy);
    forall i | 0 <= i < |cuts| - 1 ensures Rises(cuts, i) {
      if i < |greedy| - 1 {
        assert Rises(greedy, i);
      }
    }
  }

  /** Boundary `j` is the first at or past `min` from the beginning of the audio. */
  ghost predicate FirstPast(chapters: seq<Chapter>, total: nat, min: nat, j: nat) {
    && 0 < j <= |chapters| && At(chapters, total, j) >= min
    && (forall i :: 0 < i < j ==> At(chapters, total, i) < min)
  }

  predicate FarLater(chapters: seq<Chapter>, total: nat, min: nat, j: nat, k: nat) {
    j < k <= |chapters| && At(chapters, total, k) >= At(chapters, total, j) + min
  }

  /** On the chapters alone: the first boundary past the minimum is that far from
      the first chapter too, unless no later boundary is far enough from it. */
  ghost predicate FirstChapterInTime(chapters: seq<Chapter>, total: nat, min: nat)
    requires chapters != []
  {
    forall j, k :: FirstPast(chapters, total, min, j) && FarLater(chapters, total, min, j, k) ==>
      At(chapters, total, j) >= chapters[0].start + min
  }

  /** The first greedy cut is the first boundary past the minimum, and there is a
      second cut exactly when some later boundary is far enough from it. */
  lemma FirstCut(chapters: seq<Chapter>, total: nat, min: nat, cuts: seq<nat>, greedy: seq<nat>)
    requires Increasing(chapters, total) && min > 0 && |chapters| > 1 && Grouped(chapters, total, min, cuts, greedy)
    ensures forall j :: FirstPast(chapters, total, min, j) <==> |greedy| > 1 && j == greedy[1]
    ensures |greedy| > 1 ==> (|greedy| > 2 <==> exists k :: FarLater(chapters, total, min, greedy[1], k))
  {
    if |greedy| > 1 {
      assert GreedyAt(chapters, total, min, greedy, 0);
      assert FirstPast(chapters, total, min, greedy[1]);
      if |greedy| > 2 {
        assert GreedyAt(chapters, total, min, greedy, 1);
        assert FarLater(chapters, total, min, greedy[1], greedy[2]);
      }
    }
  }

  /** Either everything ended up in one file or every file meets the minimum,
      exactly when the first chapter is in time: the loop measures the first file
      from the beginning of the audio, not from its first chapter. */
  lemma MinimumExactlyWhen(chapters: seq<Chapter>, total: nat, min: nat, cuts: seq<nat>, greedy: seq<nat>)
    requires Increasing(chapters, total) && min > 0 && |chapters| > 1 && Grouped(chapters, total, min, cuts, greedy)
    ensures |cuts| == 2 || MeetsMinimum(chapters, total, min, cuts) <==> FirstChapterInTime(chapters, total, min)
    ensures chapters[0].start == 0 ==> FirstChapterInTime(chapters, total, min)
  {
    ClosedCuts(chapters, total, min, cuts, greedy);
    FirstCut(chapters, total, min, cuts, greedy);
    if |cuts| > 2 {
      CutsAreWithin(cuts, |chapters|, 1);
      assert Rises(cuts, 0);
      forall i | 0 < i < |cuts| - 1 ensures LongEnough(chapters, total, min, cuts, i) {
        GroupsMeet(chapters, total, min, cuts, greedy, i);
      }
      assert LongEnough(chapters, total, min, cuts, 0) <==> Run(chapters, total, 0, cuts[1]) >= min;
      assert cuts[1] == greedy[1];
      var k :| FarLater(chapters, total, min, greedy[1], k);
    }
  }

  /** A first chapter that starts late leaves the first file short. */
  lemma LateFirstChapterFallsShort(s: nat, min: nat, total: nat, cuts: seq<nat>, greedy: seq<nat>)
    requires 0 < s < min && total >= 2 * min
    requires Grouped([Chapter("a", s), Chapter("b", min)], total, min, cuts, greedy)
    ensures var chapters := [Chapter("a", s), Chapter("b", min)];
            Increasing(chapters, total) && cuts == [0, 1, 2] && Run(chapters, total, 0, 1) < min
  {
    var chapters := [Chapter("a", s), Chapter("b", min)];
    assert At(chapters, total, 1) == min && At(chapters, total, 2) == total;
    GreedyBound(chapters, total, min, greedy, |greedy| - 1);
    if |greedy| > 1 {
      assert GreedyAt(chapters, total, min, greedy, 0);
      if |greedy| > 2 {
        assert GreedyAt(chapters, total, min, greedy, 1);
      }
    }
  }

  // ---- no partition is finer ----

  /** The greedy cut `k` is never beyond cut `k` of any partition that meets the minimum. */
  lemma {:induction false} StaysAhead(chapters: seq<Chapter>, total: nat, min: nat, greedy: seq<nat>, other: seq<nat>, k: nat)
    requires Increasing(chapters, total) && chapters != [] && chapters[0].start == 0
    requires Greedy(chapters, total, min, greedy) && MeetsMinimum(chapters, total, min, other)
    requires k < |greedy| && k < |other|
    ensures greedy[k] <= other[k]
  {
    if k > 0 {
      StaysAhead(chapters, total, min, greedy, other, k - 1);
      assert GreedyAt(chapters, total, min, greedy, k - 1) && LongEnough(chapters, total, min, other, k - 1);
      FarFromEarlier(chapters, total, min, greedy[k - 1], other[k - 1], other[k]);
    }
  }

  lemma FarFromEarlier(chapters: seq<Chapter>, total: nat, min: nat, early: nat, late: nat, to: nat)
    requires Increasing(chapters, total) && chapters != [] && chapters[0].start == 0
    requires early <= late < to <= |chapters| && Run(chapters, total, late, to) >= min
    ensures SatSub(At(chapters, total, to), Base(chapters, total, early)) >= min
  {}

  /** For chapters that start at 0, no partition into consecutive runs that all
      meet the minimum has more files than the greedy one. */
  lemma NoPartitionIsFiner(chapters: seq<Chapter>, total: nat, min: nat, cuts: seq<nat>, greedy: seq<nat>, other: seq<nat>)
    requires Increasing(chapters, total) && chapters != [] && chapters[0].start == 0 && min > 0
    requires Grouped(chapters, total, min, cuts, greedy) && MeetsMinimum(chapters, total, min, other)
    ensures |other| <= |cuts|
  {
    var g := |greedy| - 1;
    if |other| > |greedy| {
      StaysAhead(chapters, total, min, greedy, other, g);
      assert LongEnough(chapters, total, min, other, g);
      FarFromEarlier(chapters, total, min, greedy[g], other[g], other[g + 1]);
      assert false;
    }
  }

  /** With no minimum every chapter is its own file, which nothing can exceed. */
  lemma {:induction false} CutsBound(cuts: seq<nat>, n: nat, k: nat)
    requires Cuts(cuts, n) && k < |cuts|
    ensures k <= cuts[k]
  {
    if k > 0 {
      CutsBound(cuts, n, k - 1);
      assert Rises(cuts, k - 1);
    }
  }

  // ---- trim ranges ----

  /** The first start after `t` in list order, or the end of the audio. */
  function NextStart(chapters: seq<Chapter>, t: nat, total: nat): nat {
    if chapters == [] then total
    else if chapters[0].start > t then chapters[0].start
    else NextStart(chapters[1..], t, total)
  }

  lemma {:induction false} NextStartIsNext(chapters: seq<Chapter>, total: nat, i: nat)
    requires Increasing(chapters, total) && i < |chapters|
    ensures NextStart(chapters, chapters[i].start, total) == At(chapters, total, i + 1)
  {
    assert At(chapters, total, 0) <= At(chapters, total, i);
    if i == 0 {
      if |chapters| > 1 {
        assert At(chapters, total, 0) < At(chapters, total, 1);
        assert chapters[1..][0] == chapters[1];
      }
    } else {
      var rest := chapters[1..];
      forall j, k | 0 <= j < k <= |rest| ensures At(rest, total, j) < At(rest, total, k) {
        assert At(rest, total, j) == At(chapters, total, j + 1) && At(rest, total, k) == At(chapters, total, k + 1);
      }
      NextStartIsNext(rest, total, i - 1);
      assert At(rest, total, i) == At(chapters, total, i + 1);
    }
  }

  /** The ranges `split_audio_by_chapters` cuts the audio into. */
  method TrimRanges(chapters: seq<Chapter>, groups: seq<seq<Chapter>>, total: nat, ghost cuts: seq<nat>) returns (ranges: seq<Range>)
    requires Partition(chapters, groups, cuts)
    ensures |ranges| == |groups|
    ensures Increasing(chapters, total) ==>
              forall i :: 0 <= i < |groups| ==> IsTile(chapters, total, cuts, ranges, i)
  {
    ranges := [];
    for i := 0 to |groups|
      invariant |ranges| == i
      invariant Increasing(chapters, total) ==> forall k :: 0 <= k < i ==> IsTile(chapters, total, cuts, ranges, k)
    {
      assert IsRun(chapters, groups, cuts, i);
      var group := groups[i];
      var last := group[|group| - 1];
      if Increasing(chapters, total) {
        NextStartIsNext(chapters, total, cuts[i + 1] - 1);
      }
      ghost var was := ranges;
      ranges := ranges + [Range(group[0].start, NextStart(chapters, last.start, total))];
      forall k | 0 <= k < i && Increasing(chapters, total) ensures IsTile(chapters, total, cuts, ranges, k) {
        assert IsTile(chapters, total, cuts, was, k);
      }
    }
  }

  predicate IsTile(chapters: seq<Chapter>, total: nat, cuts: seq<nat>, ranges: seq<Range>, i: nat) {
    i < |ranges| && i + 1 < |cuts| && cuts[i] <= |chapters| && cuts[i + 1] <= |chapters|
    && ranges[i] == Range(At(chapters, total, cuts[i]), At(chapters, total, cuts[i + 1]))
  }

  /** Consecutive ranges abut, from the first chapter to the end of the audio. */
  lemma TilesAbut(chapters: seq<Chapter>, total: nat, groups: seq<seq<Chapter>>, cuts: seq<nat>, ranges: seq<Range>)
    requires Partition(chapters, groups, cuts) && chapters != [] && Increasing(chapters, total)
    requires |ranges| == |groups| && forall i :: 0 <= i < |groups| ==> IsTile(chapters, total, cuts, ranges, i)
    ensures ranges != [] && ranges[0].start == chapters[0].start && ranges[|ranges| - 1].end == total
    ensures forall i :: 0 <= i < |ranges| - 1 ==> ranges[i].end == Successor(ranges, i).start
  {
    assert IsTile(chapters, total, cuts, ranges, 0) && IsTile(chapters, total, cuts, ranges, |ranges| - 1);
    forall i | 0 <= i < |ranges| - 1 ensures ranges[i].end == Successor(ranges, i).start {
      assert IsTile(chapters, total, cuts, ranges, i) && IsTile(chapters, total, cuts, ranges, i + 1);
    }
  }

  lemma TilesAreOrdered(chapters: seq<Chapter>, total: nat, groups: seq<seq<Chapter>>, cuts: seq<nat>, ranges: seq<Range>, i: nat, j: nat)
    requires Partition(chapters, groups, cuts) && Increasing(chapters, total) && i < j < |groups|
    requires |ranges| == |groups| && IsTile(chapters, total, cuts, ranges, i) && IsTile(chapters, total, cuts, ranges, j)
    ensures ranges[i].end <= ranges[j].start
  {
    forall k | 0 <= k < |groups| ensures Rises(cuts, k) { assert IsRun(chapters, groups, cuts, k); }
    RisesFar(cuts, |chapters|, i + 1, j);
  }

  /** The files tile the audio: every instant from the first chapter on lies in
      exactly one range. */
  lemma EveryInstantOnce(chapters: seq<Chapter>, total: nat, groups: seq<seq<Chapter>>, cuts: seq<nat>, ranges: seq<Range>, t: nat)
    requires Partition(chapters, groups, cuts) && chapters != [] && Increasing(chapters, total)
    requires |ranges| == |groups| && forall i :: 0 <= i < |groups| ==> IsTile(chapters, total, cuts, ranges, i)
    requires chapters[0].start <= t < total
    ensures exists i :: 0 <= i < |ranges| && ranges[i].start <= t < ranges[i].end
    ensures forall i, j :: 0 <= i < j < |ranges| ==> ranges[i].end <= ranges[j].start
  {
    forall i, j | 0 <= i < j < |ranges| ensures ranges[i].end <= ranges[j].start {
      TilesAreOrdered(chapters, total, groups, cuts, ranges, i, j);
    }
    TilesAbut(chapters, total, groups, cuts, ranges);
    FindTile(chapters, total, groups, cuts, ranges, t, |groups|);
  }

  function Successor(ranges: seq<Range>, i: nat): Range
    requires i + 1 < |ranges|
  {
    ranges[i + 1]
  }

  lemma {:induction false} RisesFar(cuts: seq<nat>, n: nat, i: nat, j: nat)
    requires Cuts(cuts, n) && i <= j < |cuts|
    ensures cuts[i] <= cuts[j]
    decreases j - i
  {
    if i < j {
      assert Rises(cuts, i);
      RisesFar(cuts, n, i + 1, j);
    }
  }

  lemma {:induction false} FindTile(chapters: seq<Chapter>, total: nat, groups: seq<seq<Chapter>>, cuts: seq<nat>, ranges: seq<Range>, t: nat, k: nat)
    requires Partition(chapters, groups, cuts) && 0 < k <= |groups|
    requires |ranges| == |groups| && forall i :: 0 <= i < |groups| ==> IsTile(chapters, total, cuts, ranges, i)
    requires IsTile(chapters, total, cuts, ranges, 0) && IsTile(chapters, total, cuts, ranges, k - 1)
    requires ranges[0].start <= t < ranges[k - 1].end
    ensures exists i :: 0 <= i < |ranges| && ranges[i].start <= t < ranges[i].end
  {
    if ranges[k - 1].start > t {
      assert IsTile(chapters, total, cuts, ranges, k - 2);
      FindTile(chapters, total, groups, cuts, ranges, t, k - 1);
    }
  }
}
