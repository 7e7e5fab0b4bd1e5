/** neurosky/analysing_data.py: the offline experiment. Every recording
    index contributes its right-arm file cut into `split_by` sections
    labelled 0 and its left-arm file cut likewise labelled 1; the shuffled
    examples are split 80/20 into training and test sets, unzipped into
    examples and labels, and turned into magnitude vectors by a batch-mode
    processor. File loading, shuffling, PCA/ICA and scoring are not part of
    this model; the shuffled order is an input. */
module Analysis {
  import opened Wrappers
  import W = Windowing
  import Seqs
  import Sp = SrcProcessor
  import Spectral

  /** The two files of one recording index. */
  datatype Recording<S> = Recording(right: seq<S>, left: seq<S>)

  /** One example: a section of samples and its class (0 right, 1 left). */
  type Example<S> = (seq<S>, int)

  /** The length of the first section when `n` samples are cut into `k`:
      numpy puts the longer sections first, so it is n/k rounded up. */
  function FirstSection(n: nat, k: nat): (q: nat)
    requires k > 0
    ensures q <= n && (k == 1 ==> q == n)
    decreases n
  {
    if n == 0 then 0
    else if n <= k then 1
    else 1 + FirstSection(n - k, k)
  }

  /** The first section holds n/k samples rounded up. */
  lemma {:induction false} FirstSectionIsCeiling(n: nat, k: nat)
    requires k > 0
    ensures (FirstSection(n, k) - 1) * k < n <= FirstSection(n, k) * k
    decreases n
  {
    if n > k {
      FirstSectionIsCeiling(n - k, k);
      var q := FirstSection(n - k, k);
      assert (q + 1) * k == q * k + k;
    }
  }

  /** `np.array_split(xs, k)` for k > 0: `k` consecutive sections. */
  function Sections<S>(xs: seq<S>, k: nat): (r: seq<seq<S>>)
    requires k > 0
    ensures |r| == k
    decreases k
  {
    if k == 1 then [xs]
    else
      var q := FirstSection(|xs|, k);
      [xs[..q]] + Sections(xs[q..], k - 1)
  }

  /** The sections put back together are the input. */
  lemma {:induction false} SectionsCover<S>(xs: seq<S>, k: nat)
    requires k > 0
    ensures W.Flatten(Sections(xs, k)) == xs
    decreases k
  {
    if k > 1 {
      var q := FirstSection(|xs|, k);
      SectionsCover(xs[q..], k - 1);
      var r := Sections(xs, k);
      assert r[1..] == Sections(xs[q..], k - 1);
      assert xs[..q] + xs[q..] == xs;
    }
  }

  /** `np.array_split`: a section count of 0 raises. */
  function ArraySplit<S>(xs: seq<S>, k: nat): (r: Option<seq<seq<S>>>)
    ensures r.Some? <==> k > 0
    ensures r.Some? ==> |r.value| == k && W.Flatten(r.value) == xs
  {
    if k == 0 then None
    else
      SectionsCover(xs, k);
      Some(Sections(xs, k))
  }

  /** Each section paired with the label. */
  function Tag<S>(chunks: seq<seq<S>>, cls: int): (r: seq<Example<S>>)
    ensures |r| == |chunks|
    ensures forall i :: 0 <= i < |r| ==> r[i] == (chunks[i], cls)
  {
    seq(|chunks|, i requires 0 <= i < |chunks| => (chunks[i], cls))
  }

  lemma MulSucc(a: nat, b: nat)
    ensures a * (b + 1) == a * b + a
  {
  }

  /** The examples of one recording index: right sections, then left. */
  function Entries<S>(rec: Recording<S>, k: nat): (r: seq<Example<S>>)
    requires k > 0
    ensures |r| == 2 * k
  {
    Tag(Sections(rec.right, k), 0) + Tag(Sections(rec.left, k), 1)
  }

  /** The `data_batch` loop over the recording indices in order. */
  function Batch<S>(files: seq<Recording<S>>, k: nat): (r: seq<Example<S>>)
    requires k > 0
    ensures |r| == 2 * k * |files|
    decreases |files|
  {
    if files == [] then []
    else
      var rest := Batch(files[1..], k);
      MulSucc(2 * k, |files[1..]|);
      Entries(files[0], k) + rest
  }

  /** `data_batch`: without recordings nothing is split, so a section count
      of 0 only raises when there is a file to split. */
  function DataBatch<S>(files: seq<Recording<S>>, k: nat): (r: Option<seq<Example<S>>>)
    ensures r.Some? <==> k > 0 || files == []
    ensures r.Some? ==> |r.value| == 2 * k * |files|
  {
    if files == [] then Some([])
    else if k == 0 then None
    else Some(Batch(files, k))
  }

  /** The sections that carry label `cls`, in order. */
  function Select<S>(xs: seq<Example<S>>, cls: int): (r: seq<seq<S>>)
    ensures |r| <= |xs|
    decreases |xs|
  {
    if xs == [] then []
    else (if xs[0].1 == cls then [xs[0].0] else []) + Select(xs[1..], cls)
  }

  lemma {:induction false} SelectConcat<S>(a: seq<Example<S>>, b: seq<Example<S>>, cls: int)
    ensures Select(a + b, cls) == Select(a, cls) + Select(b, cls)
    decreases |a|
  {
    if a != [] {
      SelectConcat(a[1..], b, cls);
      assert (a + b)[1..] == a[1..] + b;
      var h := if a[0].1 == cls then [a[0].0] else [];
      Seqs.AppendAssoc(h, Select(a[1..], cls), Select(b, cls));
    } else {
      assert a + b == b;
    }
  }

  lemma {:induction false} SelectTag<S>(chunks: seq<seq<S>>, cls: int, other: int)
    requires other != cls
    ensures Select(Tag(chunks, cls), cls) == chunks
    ensures Select(Tag(chunks, cls), other) == []
    decreases |chunks|
  {
    if chunks != [] {
      SelectTag(chunks[1..], cls, other);
      assert Tag(chunks, cls)[1..] == Tag(chunks[1..], cls);
      assert chunks == [chunks[0]] + chunks[1..];
    }
  }

  lemma {:induction false} FlattenConcat<S>(a: seq<seq<S>>, b: seq<seq<S>>)
    ensures W.Flatten(a + b) == W.Flatten(a) + W.Flatten(b)
    decreases |a|
  {
    if a != [] {
      FlattenConcat(a[1..], b);
      assert (a + b)[1..] == a[1..] + b;
      Seqs.AppendAssoc(a[0], W.Flatten(a[1..]), W.Flatten(b));
    } else {
      assert a + b == b;
    }
  }

  /** The file of each recording that carries class `cls`: the right-arm
      files for 0, the left-arm files for 1. */
  function Sides<S>(files: seq<Recording<S>>, cls: int): seq<seq<S>>
    requires cls == 0 || cls == 1
  {
    seq(|files|, i requires 0 <= i < |files| => if cls == 0 then files[i].right else files[i].left)
  }

  /** The examples of one recording index hold its right file under label 0
      and its left file under label 1. */
  lemma EntriesSelect<S>(rec: Recording<S>, k: nat, cls: int)
    requires k > 0 && (cls == 0 || cls == 1)
    ensures W.Flatten(Select(Entries(rec, k), cls)) == if cls == 0 then rec.right else rec.left
  {
    var rs, ls := Sections(rec.right, k), Sections(rec.left, k);
    SelectConcat(Tag(rs, 0), Tag(ls, 1), cls);
    SelectTag(rs, 0, 1);
    SelectTag(ls, 1, 0);
    SectionsCover(rec.right, k);
    SectionsCover(rec.left, k);
    if cls == 0 {
      assert Select(Entries(rec, k), cls) == rs + [];
      assert rs + [] == rs;
    } else {
      assert Select(Entries(rec, k), cls) == [] + ls;
      assert [] + ls == ls;
    }
  }

  /** `Batch` takes the recordings front to back. */
  lemma BatchUnfold<S>(files: seq<Recording<S>>, k: nat)
    requires k > 0 && files != []
    ensures Batch(files, k) == Entries(files[0], k) + Batch(files[1..], k)
  {
  }

  /** Labelling loses, duplicates and reorders nothing: the label-0 sections
      are exactly the right-arm files one after another, and the label-1
      sections the left-arm files. */
  lemma {:induction false} BatchKeepsRecordings<S>(files: seq<Recording<S>>, k: nat, cls: int)
    requires k > 0 && (cls == 0 || cls == 1)
    ensures W.Flatten(Select(Batch(files, k), cls)) == W.Flatten(Sides(files, cls))
    decreases |files|
  {
    if files != [] {
      var e, rest := Entries(files[0], k), Batch(files[1..], k);
      BatchUnfold(files, k);
      BatchKeepsRecordings(files[1..], k, cls);
      EntriesSelect(files[0], k, cls);
      SelectConcat(e, rest, cls);
      FlattenConcat(Select(e, cls), Select(rest, cls));
      assert Sides(files, cls)[1..] == Sides(files[1..], cls);
    }
  }

  /** `split_x_y(data)`: the examples and the labels, position by position. */
  function SplitXY<S>(data: seq<Example<S>>): (r: (seq<seq<S>>, seq<int>))
    ensures |r.0| == |data| && |r.1| == |data|
    ensures forall i :: 0 <= i < |data| ==> r.0[i] == data[i].0 && r.1[i] == data[i].1
  {
    (seq(|data|, i requires 0 <= i < |data| => data[i].0),
     seq(|data|, i requires 0 <= i < |data| => data[i].1))
  }

  function Zip<S>(xs: seq<seq<S>>, ys: seq<int>): (r: seq<Example<S>>)
    requires |xs| == |ys|
  {
    seq(|xs|, i requires 0 <= i < |xs| => (xs[i], ys[i]))
  }

  /** Zipping what `split_x_y` returns gives back its input. */
  lemma SplitXYRoundTrip<S>(data: seq<Example<S>>)
    ensures var r := SplitXY(data); Zip(r.0, r.1) == data
  {
  }

  /** `int(0.8 * n)`: the training share of `n` items (exact for any length
      below 2^50, where the floating product cannot cross an integer). */
  function TrainCount(n: nat): (c: nat)
    ensures c <= n
    ensures 5 * c <= 4 * n < 5 * c + 5
  {
    (4 * n) / 5
  }

  /** `np.split(batch, [int(0.8 * n)])`. */
  function TrainTest<T>(batch: seq<T>): (r: (seq<T>, seq<T>))
    ensures |r.0| == TrainCount(|batch|)
    ensures r.0 + r.1 == batch
  {
    (batch[..TrainCount(|batch|)], batch[TrainCount(|batch|)..])
  }

  /** `process(data)` without PCA or ICA: one batch-mode `fft` per section,
      collecting `processed_data` after each; an exception in a transform
      reaches the caller (None). */
  function Process(p: Sp.Processor, data: seq<seq<int>>, mag: Sp.Magnitude): (r: Option<seq<seq<real>>>)
    ensures r.Some? ==> |r.value| == |data|
    decreases |data|
  {
    if data == [] then Some([])
    else
      var s := Sp.Fft(p, data[0], mag);
      if s.outcome.Raised? then None
      else match Process(s.proc, data[1..], mag)
        case None => None
        case Some(rest) => Some([s.proc.processed] + rest)
  }

  /** The processors `Process` may start from: batch mode, empty buffer, a
      nonzero rate and an open subject. */
  predicate Ready(p: Sp.Processor) {
    p.batchMode && p.batch == [] && p.fs != 0 && !p.out.disposed
  }

  /** One `fft` call of `process`: it cannot raise, keeps the processor
      ready, and leaves `processed_data` at the section's vector or at its
      old value. */
  lemma ProcessStep(p: Sp.Processor, x: seq<int>, mag: Sp.Magnitude)
    requires Ready(p)
    ensures var s := Sp.Fft(p, x, mag);
      && !s.outcome.Raised? && Ready(s.proc) && s.proc.threshold == p.threshold
      && s.proc.live == p.live && s.proc.fs == p.fs
      && s.proc.processed == if Spectral.PassesGate(x, p.threshold) then Sp.Vector(x, p.live, p.fs, mag) else p.processed
  {
    assert p.batch + x == x;
  }

  /** The entries `process` should collect, starting from `prev`: a
      section that passes the gate gives its vector, any other repeats the
      entry before it. */
  function Expected(prev: seq<real>, data: seq<seq<int>>, threshold: int, live: bool, fs: int,
                    mag: Sp.Magnitude): (r: seq<seq<real>>)
    requires fs != 0
    ensures |r| == |data|
    decreases |data|
  {
    if data == [] then []
    else
      var e := if Spectral.PassesGate(data[0], threshold) then Sp.Vector(data[0], live, fs, mag) else prev;
      [e] + Expected(e, data[1..], threshold, live, fs, mag)
  }

  /** A batch-mode processor ready to emit collects exactly the expected
      entries: one per section, in order. */
  lemma {:induction false} ProcessIsExpected(p: Sp.Processor, data: seq<seq<int>>, mag: Sp.Magnitude)
    requires Ready(p)
    ensures Process(p, data, mag) == Some(Expected(p.processed, data, p.threshold, p.live, p.fs, mag))
    decreases |data|
  {
    if data != [] {
      var s := Sp.Fft(p, data[0], mag);
      ProcessStep(p, data[0], mag);
      ProcessIsExpected(s.proc, data[1..], mag);
    }
  }

  /** Entry `i` is the vector of section `i` when that section passes the
      gate, and otherwise the entry before it (the starting value for the
      first): `processed_data` keeps its last value across a rejection. */
  lemma {:induction false} ExpectedAt(prev: seq<real>, data: seq<seq<int>>, threshold: int, live: bool, fs: int,
                                      mag: Sp.Magnitude, i: nat)
    requires fs != 0 && i < |data|
    ensures var r := Expected(prev, data, threshold, live, fs, mag);
      r[i] == if Spectral.PassesGate(data[i], threshold) then Sp.Vector(data[i], live, fs, mag)
              else if i == 0 then prev else r[i - 1]
    decreases |data|
  {
    if i > 0 {
      var e := Expected(prev, data, threshold, live, fs, mag)[0];
      ExpectedAt(e, data[1..], threshold, live, fs, mag, i - 1);
      assert data[1..][i - 1] == data[i];
    }
  }
}
