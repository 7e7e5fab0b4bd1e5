/** The classifiers the trainers drive, kept abstract: which kind was
    built, its estimator count, whether it has been fitted, and an oracle
    standing for scikit-learn's `fit`, `score` and `predict`, each of which
    may raise. */
module Classifier {
  import opened Wrappers

  datatype Kind = RandomForest | MLP | SVC | KNN | AdaBoost

  function NameOf(k: Kind): string {
    match k
    case RandomForest => "RandomForest"
    case MLP => "MLP"
    case SVC => "SVC"
    case KNN => "KNN"
    case AdaBoost => "AdaBoost"
  }

  /** `classifiers[classifier_name]`: an unknown name raises `KeyError`. */
  function KindOf(name: string): (r: Option<Kind>)
    ensures r.Some? ==> NameOf(r.value) == name
    ensures r.None? ==> forall k: Kind :: NameOf(k) != name
  {
    if name == "RandomForest" then Some(RandomForest)
    else if name == "MLP" then Some(MLP)
    else if name == "SVC" then Some(SVC)
    else if name == "KNN" then Some(KNN)
    else if name == "AdaBoost" then Some(AdaBoost)
    else None
  }

  /** Every kind is found again under its own name. */
  lemma KindNameRoundTrip(k: Kind)
    ensures KindOf(NameOf(k)) == Some(k)
  {
  }

  /** An estimator: its kind, `n_estimators` (ensembles only), fitted yet. */
  datatype Model = Model(kind: Kind, nEstimators: int, fitted: bool)

  /** The estimator the constructors build: the ensembles start with 100
      trees, the others have no estimator count. */
  function Create(k: Kind): (m: Model)
    ensures m.kind == k && !m.fitted
    ensures (k == RandomForest || k == AdaBoost) <==> m.nEstimators == 100
  {
    Model(k, if k == RandomForest || k == AdaBoost then 100 else 0, false)
  }

  /** `fit`, `score` and `predict`: whether fitting on the given examples
      succeeds, the score (None when it raises, as on an unfitted model),
      and the predicted label (None when it raises). */
  datatype Oracle<!S, !L> = Oracle(
    fits: (Model, seq<S>, seq<L>) -> bool,
    score: (Model, seq<S>, seq<L>) -> Option<real>,
    predict: (Model, S) -> Option<L>)

  /** `cls.fit(X, y)`: the fitted model, or None when fitting raises. */
  function Fit<S, L>(o: Oracle<S, L>, m: Model, xs: seq<S>, ys: seq<L>): (r: Option<Model>)
    ensures r.Some? <==> o.fits(m, xs, ys)
    ensures r.Some? ==> r.value.fitted && r.value.kind == m.kind && r.value.nEstimators == m.nEstimators
  {
    if o.fits(m, xs, ys) then Some(m.(fitted := true)) else None
  }
}
