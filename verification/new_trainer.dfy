/** neurosky/_new_trainer.py: a trainer that keeps a session list and a
    cumulative list of examples, fits an abstract classifier on the
    cumulative list behind a non-re-entrant `_is_training` guard, records one
    summary entry per completed run, and publishes predictions once trained.
    Training threads run synchronously here; an exception on such a thread
    ends the run with the state it had at the raise. */
module NewTrainer {
  import opened Wrappers
  import opened Channels
  import C = Classifier

  /** One `training_summary` entry (the wall-clock training time is not
      modelled). */
  datatype Summary = Summary(
    identifier: string, classifier: string,
    scoreBefore: real, scoreAfter: real,
    scoredAgainst: nat, totalProcessed: nat)

  datatype Trainer<S, L> = Trainer(
    name: string,
    model: C.Model,
    isOpen: bool,
    isTrained: bool,
    isTraining: bool,
    identifier: Option<string>,
    samples: seq<S>, targets: seq<L>,
    accSamples: seq<S>, accTargets: seq<L>,
    summary: seq<Summary>,
    prediction: Channel<L>)

  /** The outcome of a step: the new state, and whether the step raised. */
  datatype Step<S, L> = Step(trainer: Trainer<S, L>, raised: bool)

  /** Examples and labels pair up, and the session examples are the most
      recent stretch of the cumulative ones. */
  ghost predicate Consistent<S, L>(t: Trainer<S, L>) {
    && |t.samples| == |t.targets|
    && |t.accSamples| == |t.accTargets|
    && |t.samples| <= |t.accSamples|
    && t.samples == t.accSamples[|t.accSamples| - |t.samples|..]
    && t.targets == t.accTargets[|t.accTargets| - |t.targets|..]
  }

  /** The constructor: `classifiers[classifier_name]` raises `KeyError`
      (None) for a name outside the five known ones. */
  function Init<S, L>(name: string): (r: Option<Trainer<S, L>>)
    ensures r.Some? <==> C.KindOf(name).Some?
    ensures r.Some? ==> var t := r.value;
      && t.name == name && C.KindOf(name) == Some(t.model.kind) && !t.model.fitted
      && t.isOpen && !t.isTrained && !t.isTraining && t.identifier.None?
      && t.samples == [] && t.accSamples == [] && t.summary == []
      && t.prediction == Open() && Consistent(t)
  {
    match C.KindOf(name)
    case None => None
    case Some(k) =>
      Some(Trainer(name, C.Create(k), true, false, false, None, [], [], [], [], [], Open()))
  }

  /** `add_data(X, y)`: appends each `X[i]`, `y[i]` to both lists. When `y`
      is shorter than `X`, `y[len(y)]` raises `IndexError` right after
      `X[len(y)]` went into `samples`. */
  method AddData<S, L>(t: Trainer<S, L>, xs: seq<S>, ys: seq<L>) returns (ok: bool, r: Trainer<S, L>)
    ensures ok <==> |xs| <= |ys|
    ensures ok ==> r == t.(samples := t.samples + xs, targets := t.targets + ys[..|xs|],
                           accSamples := t.accSamples + xs, accTargets := t.accTargets + ys[..|xs|])
    ensures !ok ==> r == t.(samples := t.samples + xs[..|ys| + 1], targets := t.targets + ys,
                            accSamples := t.accSamples + xs[..|ys|], accTargets := t.accTargets + ys)
  {
    r := t;
    var i := 0;
    while i < |xs|
      invariant 0 <= i <= |xs| && i <= |ys|
      invariant r == t.(samples := t.samples + xs[..i], targets := t.targets + ys[..i],
                        accSamples := t.accSamples + xs[..i], accTargets := t.accTargets + ys[..i])
    {
      r := r.(samples := r.samples + [xs[i]]);
      if i == |ys| {
        assert xs[..i + 1] == xs[..i] + [xs[i]];
        assert ys[..i] == ys;
        return false, r;
      }
      r := r.(targets := r.targets + [ys[i]], accSamples := r.accSamples + [xs[i]],
              accTargets := r.accTargets + [ys[i]]);
      assert xs[..i + 1] == xs[..i] + [xs[i]];
      assert ys[..i + 1] == ys[..i] + [ys[i]];
      i := i + 1;
    }
    assert xs[..i] == xs;
    ok := true;
  }

  /** Appending the same examples to a list and to one of its suffixes keeps
      the suffix relation. */
  lemma SuffixExtend<T>(acc: seq<T>, s: seq<T>, xs: seq<T>)
    requires |s| <= |acc| && s == acc[|acc| - |s|..]
    ensures s + xs == (acc + xs)[|acc + xs| - |s + xs|..]
  {
    var a := acc + xs;
    assert |a| - |s + xs| == |acc| - |s|;
    forall k | 0 <= k < |s + xs|
      ensures (s + xs)[k] == a[|acc| - |s|..][k]
    {
      if k < |s| {
        assert s[k] == acc[|acc| - |s| + k];
      }
    }
  }

  /** A well-formed `add_data` keeps the lists consistent; one with too few
      labels leaves `samples` one longer than `targets`. */
  method AddDataConsistency<S, L>(t: Trainer<S, L>, xs: seq<S>, ys: seq<L>) returns (ok: bool, r: Trainer<S, L>)
    requires Consistent(t)
    ensures ok <==> |xs| <= |ys|
    ensures ok ==> Consistent(r)
    ensures !ok ==> |r.samples| == |r.targets| + 1
  {
    ok, r := AddData(t, xs, ys);
    if ok {
      SuffixExtend(t.accSamples, t.samples, xs);
      SuffixExtend(t.accTargets, t.targets, ys[..|xs|]);
    }
  }

  /** `clear_data`: empties the session and the cumulative lists. */
  function ClearData<S, L>(t: Trainer<S, L>): (r: Trainer<S, L>)
    ensures r.samples == [] && r.targets == [] && r.accSamples == [] && r.accTargets == []
    ensures Consistent(r)
    ensures r.(samples := t.samples, targets := t.targets,
               accSamples := t.accSamples, accTargets := t.accTargets) == t
  {
    t.(samples := [], targets := [], accSamples := [], accTargets := [])
  }

  /** The body shared by `_random_forest`, `_mlp`, `_svc`, `_knn` and
      `_adaboost`: the random forest first grows by one tree, then the
      classifier is fitted on the cumulative lists and `is_trained` is set. */
  function FitBody<S, L>(t: Trainer<S, L>, o: C.Oracle<S, L>): (r: Step<S, L>)
    ensures r.trainer.model.nEstimators
            == t.model.nEstimators + (if t.model.kind == C.RandomForest then 1 else 0)
    ensures r.trainer.model.kind == t.model.kind
    ensures !r.raised <==> o.fits(r.trainer.model.(fitted := t.model.fitted), t.accSamples, t.accTargets)
    ensures !r.raised ==> r.trainer.isTrained && r.trainer.model.fitted
    ensures r.raised ==> r.trainer.isTrained == t.isTrained
    ensures r.trainer.(model := t.model, isTrained := t.isTrained) == t
  {
    var m := if t.model.kind == C.RandomForest
             then t.model.(nEstimators := t.model.nEstimators + 1) else t.model;
    match C.Fit(o, m, t.accSamples, t.accTargets)
    case None => Step(t.(model := m), true)
    case Some(m') => Step(t.(model := m', isTrained := true), false)
  }

  /** `_train`: runs the unwrapped fit body of the trainer's classifier (all
      five, AdaBoost included) without the guard or a summary, then empties
      the session lists whether or not the fit raised on its thread. */
  function TrainUnguarded<S, L>(t: Trainer<S, L>, o: C.Oracle<S, L>): (r: Trainer<S, L>)
    ensures r.samples == [] && r.targets == []
    ensures r.accSamples == t.accSamples && r.accTargets == t.accTargets
    ensures r.isTraining == t.isTraining && r.summary == t.summary && r.prediction == t.prediction
    ensures r.isTrained <==> t.isTrained || FitBody(t, o).trainer.isTrained
    ensures Consistent(t) ==> Consistent(r)
  {
    FitBody(t, o).trainer.(samples := [], targets := [])
  }

  /** The `_training` wrapper around a fit body. Skipped entirely while a run
      is in progress. Otherwise it raises the guard, scores before, fits,
      scores after, appends one summary entry, empties the session lists and
      lowers the guard; any exception on the way leaves the guard raised. */
  function WrappedRun<S, L>(t: Trainer<S, L>, o: C.Oracle<S, L>): (r: Step<S, L>)
    ensures t.isTraining ==> r == Step(t, false)
    ensures !t.isTraining && r.raised ==> r.trainer.isTraining && r.trainer.summary == t.summary
    ensures !t.isTraining && !r.raised ==>
      && !r.trainer.isTraining && r.trainer.isTrained && r.trainer.model.fitted
      && r.trainer.samples == [] && r.trainer.targets == []
      && r.trainer.accSamples == t.accSamples && r.trainer.accTargets == t.accTargets
      && |r.trainer.summary| == |t.summary| + 1
      && r.trainer.summary[..|t.summary|] == t.summary
      && t.identifier.Some?
      && r.trainer.summary[|t.summary|].identifier == t.identifier.value
      && r.trainer.summary[|t.summary|].classifier == t.name
      && r.trainer.summary[|t.summary|].scoredAgainst == |t.samples|
      && r.trainer.summary[|t.summary|].totalProcessed == |t.accSamples|
    ensures r.trainer.prediction == t.prediction && r.trainer.isOpen == t.isOpen
    ensures r.trainer.identifier == t.identifier
    ensures r.trainer.accSamples == t.accSamples && r.trainer.accTargets == t.accTargets
    ensures Consistent(t) ==> Consistent(r.trainer)
  {
    if t.isTraining then Step(t, false)
    else
      var t1 := t.(isTraining := true);
      match o.score(t1.model, t1.samples, t1.targets)
      case None => Step(t1, true)
      case Some(before) =>
        var f := FitBody(t1, o);
        if f.raised then f
        else match o.score(f.trainer.model, f.trainer.samples, f.trainer.targets)
          case None => Step(f.trainer, true)
          case Some(after) =>
            match t.identifier
            case None => Step(f.trainer, true)
            case Some(id) =>
              var entry := Summary(id, t.name, before, after, |t.samples|, |t.accSamples|);
              Step(f.trainer.(summary := t.summary + [entry], samples := [], targets := [],
                              isTraining := false), false)
  }

  /** `train(identifier)`: ignored once closed; otherwise records the
      identifier and starts the wrapped fit for the four dispatched
      classifiers. An AdaBoost trainer only records the identifier. */
  function Train<S, L>(t: Trainer<S, L>, id: string, o: C.Oracle<S, L>): (r: Step<S, L>)
    ensures !t.isOpen ==> r == Step(t, false)
    ensures t.isOpen ==> r.trainer.identifier == Some(id)
    ensures t.isOpen && t.model.kind == C.AdaBoost ==> r == Step(t.(identifier := Some(id)), false)
    ensures t.isOpen && t.model.kind != C.AdaBoost ==> r == WrappedRun(t.(identifier := Some(id)), o)
    ensures Consistent(t) ==> Consistent(r.trainer)
  {
    if !t.isOpen then Step(t, false)
    else
      var t1 := t.(identifier := Some(id));
      if t.model.kind == C.AdaBoost then Step(t1, false) else WrappedRun(t1, o)
  }

  /** `predict(data)`: once trained and not training, publishes the
      predicted label; the prediction or the publish may raise. */
  function Predict<S, L>(t: Trainer<S, L>, x: S, o: C.Oracle<S, L>): (r: Step<S, L>)
    ensures !(t.isTrained && !t.isTraining) ==> r == Step(t, false)
    ensures r.raised ==> r.trainer == t
    ensures r.trainer.(prediction := t.prediction) == t
    ensures !r.raised && t.isTrained && !t.isTraining ==>
      o.predict(t.model, x).Some? && r.trainer.prediction.log == t.prediction.log + [o.predict(t.model, x).value]
    ensures r.raised <==> t.isTrained && !t.isTraining && (o.predict(t.model, x).None? || t.prediction.disposed)
  {
    if t.isTrained && !t.isTraining then
      match o.predict(t.model, x)
      case None => Step(t, true)
      case Some(l) =>
        match Publish(t.prediction, l)
        case None => Step(t, true)
        case Some(c) => Step(t.(prediction := c), false)
    else Step(t, false)
  }

  /** `close`: clears `_is_open` and disposes the prediction subject (the
      summary file is not modelled). */
  function Close<S, L>(t: Trainer<S, L>): (r: Trainer<S, L>)
    ensures !r.isOpen && r.prediction.disposed && r.prediction.log == t.prediction.log
    ensures r.(isOpen := t.isOpen, prediction := t.prediction) == t
  {
    t.(isOpen := false, prediction := Dispose(t.prediction))
  }

  /** Once closed, `train` changes nothing and `predict` can no longer
      publish. */
  lemma ClosedTrainerIsInert<S, L>(t: Trainer<S, L>, id: string, x: S, o: C.Oracle<S, L>)
    ensures Train(Close(t), id, o) == Step(Close(t), false)
    ensures Predict(Close(t), x, o).trainer.prediction.log == t.prediction.log
  {
  }

  /** Trains a sequence of identifiers in turn, stopping at the first raise. */
  function TrainAll<S, L>(t: Trainer<S, L>, ids: seq<string>, o: C.Oracle<S, L>): (r: Step<S, L>)
    decreases |ids|
  {
    if ids == [] then Step(t, false)
    else
      var s := Train(t, ids[0], o);
      if s.raised then s else TrainAll(s.trainer, ids[1..], o)
  }

  /** A run stuck with its guard raised stays stuck: no later `train`
      fits, scores or summarises, and `predict` stays silent. */
  lemma {:induction false} StuckGuardIsPermanent<S, L>(t: Trainer<S, L>, ids: seq<string>, x: S, o: C.Oracle<S, L>)
    requires t.isTraining
    ensures var r := TrainAll(t, ids, o).trainer;
      && r.isTraining && r.isTrained == t.isTrained && r.model == t.model
      && r.summary == t.summary && r.samples == t.samples && r.accSamples == t.accSamples
      && r.prediction == t.prediction
      && Predict(r, x, o) == Step(r, false)
    decreases |ids|
  {
    if ids != [] {
      StuckGuardIsPermanent(Train(t, ids[0], o).trainer, ids[1..], x, o);
    }
  }

  /** When scoring an unfitted classifier raises (scikit-learn's
      `NotFittedError`), the very first wrapped run of a fresh trainer
      raises before fitting and leaves the guard raised for good, so such a
      trainer never becomes trained through `train`. */
  lemma FirstRunStalls<S, L>(name: string, id: string, ids: seq<string>, x: S, o: C.Oracle<S, L>)
    requires C.KindOf(name).Some? && C.KindOf(name) != Some(C.AdaBoost)
    requires forall m: C.Model, xs: seq<S>, ys: seq<L> :: !m.fitted ==> o.score(m, xs, ys).None?
    ensures var t := Init<S, L>(name).value;
      var s := Train(t, id, o);
      && s.raised && s.trainer.isTraining && !s.trainer.isTrained
      && !TrainAll(s.trainer, ids, o).trainer.isTrained
      && Predict(TrainAll(s.trainer, ids, o).trainer, x, o).trainer.prediction.log == []
  {
    var t := Init<S, L>(name).value;
    var s := Train(t, id, o);
    assert o.score(t.model, t.samples, t.targets).None?;
    StuckGuardIsPermanent(s.trainer, ids, x, o);
  }
}
