/** neurosky/_unit_testing.py: the small pure pieces of the experiment
    driver — the signal-status indicator, the sliding window of samples to
    predict on, the prediction-mode switch, and how the recorded files are
    split into training and test examples. */
module UnitTesting {
  import opened Wrappers
  import Seqs

  const PoorSignal: string := "Poor Signal..."
  const GoodSignal: string := "Good Signal"

  /** `check_poor_level(level)`: the new status, and whether it changed
      (the source prints exactly then). */
  function CheckPoorLevel(status: string, level: int): (r: (string, bool))
    ensures r.0 == PoorSignal <==> level > 0
    ensures r.0 == PoorSignal || r.0 == GoodSignal
    ensures r.1 <==> r.0 != status
  {
    var s := if level > 0 then PoorSignal else GoodSignal;
    (s, s != status)
  }

  /** The indicator depends only on the latest level, and a repeated level
      changes nothing the second time. */
  lemma CheckPoorLevelSettles(s1: string, s2: string, level: int)
    ensures CheckPoorLevel(s1, level).0 == CheckPoorLevel(s2, level).0
    ensures !CheckPoorLevel(CheckPoorLevel(s1, level).0, level).1
  {
  }

  /** `loop_data(x)`: drops the oldest sample and appends `x`; `pop(0)` on an
      empty window raises `IndexError` (None). */
  function LoopData<T>(window: seq<T>, x: T): (r: Option<seq<T>>)
    ensures r.Some? <==> |window| > 0
    ensures r.Some? ==> |r.value| == |window| && r.value[|r.value| - 1] == x
                        && r.value[..|r.value| - 1] == window[1..]
  {
    if |window| == 0 then None else Some(window[1..] + [x])
  }

  /** `loop_data` over a stream of samples, stopping at a raise. */
  function LoopAll<T>(window: seq<T>, xs: seq<T>): (r: Option<seq<T>>)
    decreases |xs|
  {
    if xs == [] then Some(window)
    else match LoopData(window, xs[0])
      case None => None
      case Some(w) => LoopAll(w, xs[1..])
  }

  /** A non-empty window fed a stream always holds the latest `|window|`
      samples of the old window followed by the stream. */
  lemma {:induction false} LoopAllSlides<T>(window: seq<T>, xs: seq<T>)
    requires |window| > 0
    ensures LoopAll(window, xs) == Some((window + xs)[|xs|..])
    decreases |xs|
  {
    if xs != [] {
      var w := window[1..] + [xs[0]];
      assert LoopData(window, xs[0]) == Some(w);
      assert LoopAll(window, xs) == LoopAll(w, xs[1..]);
      LoopAllSlides(w, xs[1..]);
      Seqs.AppendAssoc(window[1..], [xs[0]], xs[1..]);
      assert [xs[0]] + xs[1..] == xs;
      assert window[1..] + xs == (window + xs)[1..];
      assert (w + xs[1..])[|xs[1..]|..] == (window + xs)[|xs|..];
    } else {
      assert window + xs == window;
    }
  }

  /** `toggle_prediction`. */
  function TogglePrediction(mode: bool): (r: bool)
    ensures r != mode
  {
    !mode
  }

  lemma ToggleTwice(mode: bool)
    ensures TogglePrediction(TogglePrediction(mode)) == mode
  {
  }

  /** The indices `lo, lo+1, …, hi-1`. */
  function Range(lo: nat, hi: nat): (r: seq<nat>)
    ensures |r| == if lo <= hi then hi - lo else 0
    ensures forall i :: 0 <= i < |r| ==> r[i] == lo + i
    decreases hi - lo
  {
    if lo >= hi then [] else [lo] + Range(lo + 1, hi)
  }

  /** `dir_size`: two files (right and left arm) per recording index. */
  function DirSize(fileCount: nat): nat {
    fileCount / 2
  }

  /** `split`: two thirds of the recording indices, rounded down to whole
      thirds. */
  function SplitPoint(dirSize: nat): (s: nat)
    ensures s <= dirSize
  {
    (dirSize / 3) * 2
  }

  function TrainIndices(dirSize: nat): seq<nat> {
    Range(0, SplitPoint(dirSize))
  }

  function TestIndices(dirSize: nat): seq<nat> {
    Range(SplitPoint(dirSize), dirSize)
  }

  /** Every recording index is used exactly once: the training indices and
      the test indices are disjoint and together are `0 … dir_size-1`, in
      order. */
  lemma {:induction false} SplitPartitions(dirSize: nat)
    ensures TrainIndices(dirSize) + TestIndices(dirSize) == Range(0, dirSize)
    ensures forall i :: 0 <= i < dirSize ==> (i in TrainIndices(dirSize) <==> i !in TestIndices(dirSize))
    ensures forall i :: i in TrainIndices(dirSize) + TestIndices(dirSize) ==> i < dirSize
  {
    var s := SplitPoint(dirSize);
    assert TrainIndices(dirSize) + TestIndices(dirSize) == Range(0, dirSize);
    forall i | 0 <= i < dirSize
      ensures i in TrainIndices(dirSize) <==> i !in TestIndices(dirSize)
    {
      if i < s {
        assert TrainIndices(dirSize)[i] == i;
      } else {
        assert TestIndices(dirSize)[i - s] == i;
      }
    }
  }

  /** The example lists built from recording indices: per index the right-arm
      example then the left-arm example, each with its identifier. `right`
      and `left` stand for the processed content of files
      `right_arm_<i+1>` and `left_arm_<i+1>`. */
  function Examples<F, L>(idx: seq<nat>, right: nat -> F, left: nat -> F, rightId: L, leftId: L): (r: (seq<F>, seq<L>))
    ensures |r.0| == 2 * |idx| && |r.1| == 2 * |idx|
    decreases |idx|
  {
    if idx == [] then ([], [])
    else
      var rest := Examples(idx[..|idx| - 1], right, left, rightId, leftId);
      var i := idx[|idx| - 1];
      (rest.0 + [right(i + 1), left(i + 1)], rest.1 + [rightId, leftId])
  }

  /** Position `2k` holds the right-arm example of the `k`-th index and
      position `2k+1` its left-arm example, each with its identifier, so the
      example and label lists stay aligned. */
  lemma {:induction false} ExamplesAt<F, L>(idx: seq<nat>, right: nat -> F, left: nat -> F, rightId: L, leftId: L, k: nat)
    requires k < |idx|
    ensures var r := Examples(idx, right, left, rightId, leftId);
      && r.0[2 * k] == right(idx[k] + 1) && r.1[2 * k] == rightId
      && r.0[2 * k + 1] == left(idx[k] + 1) && r.1[2 * k + 1] == leftId
    decreases |idx|
  {
    if k < |idx| - 1 {
      ExamplesAt(idx[..|idx| - 1], right, left, rightId, leftId, k);
    }
  }

  /** Examples of consecutive index runs concatenate. */
  lemma {:induction false} ExamplesConcat<F, L>(a: seq<nat>, b: seq<nat>, right: nat -> F, left: nat -> F, rightId: L, leftId: L)
    ensures Examples(a + b, right, left, rightId, leftId).0
            == Examples(a, right, left, rightId, leftId).0 + Examples(b, right, left, rightId, leftId).0
    ensures Examples(a + b, right, left, rightId, leftId).1
            == Examples(a, right, left, rightId, leftId).1 + Examples(b, right, left, rightId, leftId).1
    decreases |b|
  {
    if b == [] {
      assert a + b == a;
    } else {
      var b' := b[..|b| - 1];
      var x := b[|b| - 1];
      ExamplesConcat(a, b', right, left, rightId, leftId);
      assert (a + b)[..|a + b| - 1] == a + b';
      assert (a + b)[|a + b| - 1] == x;
      var ea := Examples(a, right, left, rightId, leftId);
      var eb' := Examples(b', right, left, rightId, leftId);
      Seqs.AppendAssoc(ea.0, eb'.0, [right(x + 1), left(x + 1)]);
      Seqs.AppendAssoc(ea.1, eb'.1, [rightId, leftId]);
    }
  }

  /** `_init_training`: the training examples and the test examples are,
      together and in order, one right/left pair for every recording
      index. */
  lemma InitTrainingUsesEveryRecording<F, L>(dirSize: nat, right: nat -> F, left: nat -> F, rightId: L, leftId: L)
    ensures var train := Examples(TrainIndices(dirSize), right, left, rightId, leftId);
      var test := Examples(TestIndices(dirSize), right, left, rightId, leftId);
      var all := Examples(Range(0, dirSize), right, left, rightId, leftId);
      train.0 + test.0 == all.0 && train.1 + test.1 == all.1
  {
    SplitPartitions(dirSize);
    ExamplesConcat(TrainIndices(dirSize), TestIndices(dirSize), right, left, rightId, leftId);
  }
}
