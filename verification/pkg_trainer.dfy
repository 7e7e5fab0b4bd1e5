/** neurosky/_trainer.py: a random-forest trainer whose examples arrive
    through `add_data` and are kept only while a `train` call has its
    recording window open. Its `predict` is gated on `is_previously_trained`,
    which nothing ever sets. */
module PkgTrainer {
  import opened Wrappers
  import opened Channels
  import C = Classifier
  import Seqs

  /** `self.prediction` starts as a subject; a successful prediction would
      overwrite the attribute with a text label. */
  datatype PredictionSlot = Subject | Text(text: string)

  /** Labels are the integers `train` is called with; a frame recorded
      before any `train` would be labelled `None`. */
  datatype Trainer<D> = Trainer(
    model: C.Model,
    subject: Channel<string>,
    prediction: PredictionSlot,
    isRecording: bool,
    isPreviouslyTrained: bool,
    isTraining: bool,
    currentTarget: Option<int>,
    sample: seq<D>,
    target: seq<Option<int>>,
    currentData: Option<D>)

  datatype Step<D> = Step(trainer: Trainer<D>, raised: bool)

  /** The constructor, including the `predict` it starts once on a thread. */
  function Init<D>(o: C.Oracle<D, Option<int>>): (t: Trainer<D>)
    ensures t.model == C.Create(C.RandomForest) && t.model.nEstimators == 100
    ensures !t.isRecording && !t.isPreviouslyTrained && !t.isTraining
    ensures t.sample == [] && t.target == [] && t.currentTarget.None? && t.currentData.None?
    ensures t.subject == Open() && t.prediction == Subject
  {
    Predict(Trainer(C.Create(C.RandomForest), Open(), Subject, false, false, false, None, [], [], None), o)
  }

  /** `add_data(data)`: always becomes the current data; appended together
      with the current training target only while recording. */
  function AddData<D>(t: Trainer<D>, d: D): (r: Trainer<D>)
    ensures r.currentData == Some(d)
    ensures t.isRecording ==> r.sample == t.sample + [d] && r.target == t.target + [t.currentTarget]
    ensures !t.isRecording ==> r.sample == t.sample && r.target == t.target
    ensures r.(sample := t.sample, target := t.target, currentData := t.currentData) == t
  {
    var t1 := t.(currentData := Some(d));
    if t.isRecording then t1.(sample := t.sample + [d], target := t.target + [t.currentTarget]) else t1
  }

  /** Feeds frames through `add_data` in order; only the example lists and
      the current data can change. */
  function Feed<D>(t: Trainer<D>, ds: seq<D>): (r: Trainer<D>)
    ensures r.(sample := t.sample, target := t.target, currentData := t.currentData) == t
    decreases |ds|
  {
    if ds == [] then t else Feed(AddData(t, ds[0]), ds[1..])
  }

  /** Every recording label in `ys` is the one given. */
  ghost predicate AllLabelled(ys: seq<Option<int>>, target: int) {
    forall i :: 0 <= i < |ys| ==> ys[i] == Some(target)
  }

  /** Frames fed while recording are appended in order, each with the
      current target; frames fed while not recording leave the lists alone. */
  lemma {:induction false} FeedAppends<D>(t: Trainer<D>, ds: seq<D>)
    ensures var r := Feed(t, ds);
      && r.(sample := t.sample, target := t.target, currentData := t.currentData) == t
      && (t.isRecording ==> r.sample == t.sample + ds && |r.target| == |t.target| + |ds|
                            && r.target[..|t.target|] == t.target
                            && forall i :: |t.target| <= i < |r.target| ==> r.target[i] == t.currentTarget)
      && (!t.isRecording ==> r.sample == t.sample && r.target == t.target)
      && (ds != [] ==> r.currentData == Some(ds[|ds| - 1]))
    decreases |ds|
  {
    if ds != [] {
      var t1 := AddData(t, ds[0]);
      FeedAppends(t1, ds[1..]);
      if t.isRecording {
        assert t.sample + ds == t.sample + [ds[0]] + ds[1..];
      }
    }
  }

  /** `train(target)`: raises `is_training` and sets the target; frames
      arriving during the wait are kept only if a recording window was
      already open, frames during the recording window are kept; then the
      forest grows by one tree and is fitted on every kept example. A raising
      fit propagates to the caller with `is_training` still set. */
  function Train<D>(t: Trainer<D>, target: int, waiting: seq<D>, recording: seq<D>,
                    o: C.Oracle<D, Option<int>>): (r: Step<D>)
    ensures r.trainer.model.nEstimators == t.model.nEstimators + 1
    ensures !r.trainer.isRecording && r.trainer.isTraining == r.raised
    ensures !r.raised ==> r.trainer.model.fitted
  {
    var t1 := t.(isTraining := true, currentTarget := Some(target));
    var t2 := Feed(t1, waiting);
    var t3 := Feed(t2.(isRecording := true), recording).(isRecording := false);
    var m := t3.model.(nEstimators := t3.model.nEstimators + 1);
    match C.Fit(o, m, t3.sample, t3.target)
    case None => Step(t3.(model := m), true)
    case Some(m') => Step(t3.(model := m', isTraining := false), false)
  }

  /** What one `train` call leaves behind: exactly the frames of its
      recording window (and of the wait, should a window already have been
      open) appended with the given target, one more tree, recording closed,
      and the training flag lowered unless the fit raised. */
  lemma TrainPhases<D>(t: Trainer<D>, target: int, waiting: seq<D>, recording: seq<D>,
                       o: C.Oracle<D, Option<int>>)
    ensures var r := Train(t, target, waiting, recording, o);
      var kept := (if t.isRecording then waiting else []) + recording;
      && r.trainer.sample == t.sample + kept
      && |r.trainer.target| == |t.target| + |kept|
      && r.trainer.target[..|t.target|] == t.target
      && AllLabelled(r.trainer.target[|t.target|..], target)
      && !r.trainer.isRecording
      && r.trainer.isTraining == r.raised
      && r.trainer.currentTarget == Some(target)
      && r.trainer.model.nEstimators == t.model.nEstimators + 1
      && (!r.raised <==> o.fits(t.model.(nEstimators := t.model.nEstimators + 1), t.sample + kept,
                                r.trainer.target))
      && r.trainer.isPreviouslyTrained == t.isPreviouslyTrained
      && r.trainer.subject == t.subject && r.trainer.prediction == t.prediction
  {
    var t1 := t.(isTraining := true, currentTarget := Some(target));
    FeedLabels(t1, waiting, target);
    var t2 := Feed(t1, waiting).(isRecording := true);
    FeedLabels(t2, recording, target);
    var t3 := Feed(t2, recording);
    LabelledAppend(t.target, t2.target, t3.target, target);
    Seqs.AppendAssoc(t.sample, if t.isRecording then waiting else [], recording);
  }

  /** Feeding under a fixed current target appends the frames, each with
      that target, exactly when recording. */
  lemma FeedLabels<D>(t: Trainer<D>, ds: seq<D>, target: int)
    requires t.currentTarget == Some(target)
    ensures var r := Feed(t, ds);
      var kept := if t.isRecording then ds else [];
      && r.sample == t.sample + kept
      && |r.target| == |t.target| + |kept|
      && r.target[..|t.target|] == t.target
      && AllLabelled(r.target[|t.target|..], target)
  {
    FeedAppends(t, ds);
  }

  /** Two labelled extensions in a row make one labelled extension. */
  lemma LabelledAppend(base: seq<Option<int>>, mid: seq<Option<int>>, fin: seq<Option<int>>, target: int)
    requires |base| <= |mid| <= |fin| && mid[..|base|] == base && fin[..|mid|] == mid
    requires AllLabelled(mid[|base|..], target) && AllLabelled(fin[|mid|..], target)
    ensures fin[..|base|] == base && AllLabelled(fin[|base|..], target)
  {
    assert fin[..|base|] == fin[..|mid|][..|base|];
    forall i | 0 <= i < |fin| - |base|
      ensures fin[|base|..][i] == Some(target)
    {
      if |base| + i < |mid| {
        assert fin[|base| + i] == mid[|base| + i] == mid[|base|..][i];
      } else {
        assert fin[|base| + i] == fin[|mid|..][|base| + i - |mid|];
      }
    }
  }

  /** `predict()`: only with `is_previously_trained` and not training; a
      label 0 becomes 'Arms Up', any other 'Arms Down'; an exception from the
      classifier is caught and leaves everything as it was. */
  function Predict<D>(t: Trainer<D>, o: C.Oracle<D, Option<int>>): (r: Trainer<D>)
    ensures !t.isPreviouslyTrained || t.isTraining ==> r == t
    ensures r.(prediction := t.prediction) == t
    ensures r.prediction != t.prediction ==>
      t.currentData.Some? && o.predict(t.model, t.currentData.value).Some?
      && r.prediction == Text(if o.predict(t.model, t.currentData.value).value == Some(0)
                              then "Arms Up" else "Arms Down")
  {
    if t.isPreviouslyTrained && !t.isTraining then
      match t.currentData
      case None => t
      case Some(d) =>
        match o.predict(t.model, d)
        case None => t
        case Some(l) => t.(prediction := Text(if l == Some(0) then "Arms Up" else "Arms Down"))
    else t
  }

  /** `close()`: disposes the registered subject. */
  function Close<D>(t: Trainer<D>): (r: Trainer<D>)
    ensures r.subject.disposed && r.subject.log == t.subject.log
    ensures r.(subject := t.subject) == t
  {
    t.(subject := Dispose(t.subject))
  }

  datatype Event<D> =
    | Add(d: D)
    | TrainCall(target: int, waiting: seq<D>, recording: seq<D>)
    | PredictCall
    | CloseCall

  /** Applies a sequence of calls, stopping at a `train` that raised. */
  function Run<D>(t: Trainer<D>, evs: seq<Event<D>>, o: C.Oracle<D, Option<int>>): (r: Trainer<D>)
    decreases |evs|
  {
    if evs == [] then t
    else
      match evs[0]
      case Add(d) => Run(AddData(t, d), evs[1..], o)
      case TrainCall(target, w, rec) =>
        var s := Train(t, target, w, rec, o);
        if s.raised then s.trainer else Run(s.trainer, evs[1..], o)
      case PredictCall => Run(Predict(t, o), evs[1..], o)
      case CloseCall => Run(Close(t), evs[1..], o)
  }

  /** No call sets `is_previously_trained`, so from construction on every
      `predict` is a no-op and `self.prediction` stays the subject, however
      many times the trainer was trained. */
  lemma {:induction false} PredictNeverFires<D>(t: Trainer<D>, evs: seq<Event<D>>, o: C.Oracle<D, Option<int>>)
    requires !t.isPreviouslyTrained && t.prediction == Subject
    ensures var r := Run(t, evs, o);
      !r.isPreviouslyTrained && r.prediction == Subject && Predict(r, o) == r
    decreases |evs|
  {
    if evs != [] {
      match evs[0]
      case Add(d) => PredictNeverFires(AddData(t, d), evs[1..], o);
      case TrainCall(target, w, rec) =>
        TrainPhases(t, target, w, rec, o);
        var s := Train(t, target, w, rec, o);
        if !s.raised {
          PredictNeverFires(s.trainer, evs[1..], o);
        }
      case PredictCall => PredictNeverFires(Predict(t, o), evs[1..], o);
      case CloseCall => PredictNeverFires(Close(t), evs[1..], o);
    }
  }

  /** Every example kept is paired with a label, in every reachable state. */
  lemma {:induction false} ListsStayPaired<D>(t: Trainer<D>, evs: seq<Event<D>>, o: C.Oracle<D, Option<int>>)
    requires |t.sample| == |t.target|
    ensures |Run(t, evs, o).sample| == |Run(t, evs, o).target|
    decreases |evs|
  {
    if evs != [] {
      match evs[0]
      case Add(d) => ListsStayPaired(AddData(t, d), evs[1..], o);
      case TrainCall(target, w, rec) =>
        TrainPhases(t, target, w, rec, o);
        var s := Train(t, target, w, rec, o);
        if !s.raised {
          ListsStayPaired(s.trainer, evs[1..], o);
        }
      case PredictCall => ListsStayPaired(Predict(t, o), evs[1..], o);
      case CloseCall => ListsStayPaired(Close(t), evs[1..], o);
    }
  }
}
