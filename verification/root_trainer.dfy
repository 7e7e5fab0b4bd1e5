/** _trainer.py: a random-forest trainer whose `train` runs one training
    session on a thread: wait, record the processor's latest spectrum while
    it changes, store the recording, score it if a model already exists,
    then refit on everything stored. The thread is run synchronously; an
    exception on it ends the session with the state it had at the raise. */
module RootTrainer {
  import opened Wrappers
  import C = Classifier

  /** One spectrum frame as polled from `fft_data[1]`. */
  type Frame = seq<real>

  /** The `prediction_status` texts. */
  datatype Status = Initialising | Waiting | Recording | Storing | Scoring | Training | Ready

  /** One `confidence_level` entry: the score of the fresh recording under
      the previous model, the session counter, the target, and the fit's
      duration once the fit returned. */
  datatype Confidence = Confidence(score: real, counter: nat, target: int, fitTime: Option<real>)

  datatype Trainer = Trainer(
    model: C.Model,
    isTrained: bool,
    status: Status,
    counter: nat,
    sample: seq<Frame>,
    target: seq<int>,
    confidence: seq<Confidence>)

  /** The state the constructor has built when it reaches its last line. */
  function Init(): (t: Trainer)
    ensures t.model == C.Create(C.RandomForest) && !t.isTrained && t.status == Initialising
    ensures t.counter == 0 && t.sample == [] && t.target == [] && t.confidence == []
  {
    Trainer(C.Create(C.RandomForest), false, Initialising, 0, [], [], [])
  }

  /** The recording loop: a polled frame is kept when it differs from the
      frame polled before it (the first one from the empty array). */
  function Dedup(frames: seq<Frame>, previous: Frame): (r: seq<Frame>)
    ensures |r| <= |frames|
    decreases |frames|
  {
    if frames == [] then []
    else if frames[0] == previous then Dedup(frames[1..], previous)
    else [frames[0]] + Dedup(frames[1..], frames[0])
  }

  /** No two neighbours are equal, and the first differs from `previous`. */
  ghost predicate Changes(fs: seq<Frame>, previous: Frame) {
    && (|fs| > 0 ==> fs[0] != previous)
    && forall i :: 0 < i < |fs| ==> fs[i] != fs[i - 1]
  }

  /** What the loop keeps has no consecutive duplicates, every kept frame
      was polled, and every polled frame was kept or repeats the one before. */
  lemma {:induction false} DedupChanges(frames: seq<Frame>, previous: Frame)
    ensures Changes(Dedup(frames, previous), previous)
    ensures forall f :: f in Dedup(frames, previous) ==> f in frames
    ensures forall f :: f in frames ==> f in Dedup(frames, previous) || f == previous
    decreases |frames|
  {
    if frames != [] {
      if frames[0] == previous {
        DedupChanges(frames[1..], previous);
        assert frames == [frames[0]] + frames[1..];
      } else {
        DedupChanges(frames[1..], frames[0]);
        assert frames == [frames[0]] + frames[1..];
      }
    }
  }

  /** A polled sequence that already changes at every step is kept whole. */
  lemma {:induction false} DedupKeepsChanges(frames: seq<Frame>, previous: Frame)
    requires Changes(frames, previous)
    ensures Dedup(frames, previous) == frames
    decreases |frames|
  {
    if frames != [] {
      DedupKeepsChanges(frames[1..], frames[0]);
    }
  }

  /** Polling a recording again keeps it unchanged. */
  lemma DedupIdempotent(frames: seq<Frame>, previous: Frame)
    ensures Dedup(Dedup(frames, previous), previous) == Dedup(frames, previous)
  {
    DedupChanges(frames, previous);
    DedupKeepsChanges(Dedup(frames, previous), previous);
  }

  /** `n` copies of `x`. */
  function Repeat(x: int, n: nat): (r: seq<int>)
    ensures |r| == n && forall i :: 0 <= i < n ==> r[i] == x
  {
    if n == 0 then [] else [x] + Repeat(x, n - 1)
  }

  /** One `_train_thread` session, with the trainer state and the statuses
      it went through; `died` when an exception ended the thread. */
  datatype Session = Session(trainer: Trainer, statuses: seq<Status>, died: bool)

  /** The statuses of a session that runs to the end. */
  function FullRun(wasTrained: bool): seq<Status> {
    [Waiting, Recording, Storing] + (if wasTrained then [Scoring] else []) + [Training, Ready]
  }

  /** `_train_thread(target)`. `polled` is what the recording loop reads
      from `self.fft_data`, None when the lookup raises; `elapsed` is the
      fit's duration as the clock reports it. A session only ever adds
      examples, counts itself only when it completes, and a completed
      session leaves the trainer trained and ready. */
  function TrainThread(t: Trainer, target: int, polled: Option<seq<Frame>>,
                       o: C.Oracle<Frame, int>, elapsed: real): (s: Session)
    ensures t.sample <= s.trainer.sample && t.target <= s.trainer.target
    ensures s.trainer.counter == if s.died then t.counter else t.counter + 1
    ensures !s.died ==> s.trainer.isTrained && s.trainer.status == Ready
  {
    match polled
    case None => Session(t.(status := Recording), [Waiting, Recording], true)
    case Some(frames) =>
      var rec := Dedup(frames, []);
      var labels := Repeat(target, |rec|);
      var stored := t.(sample := t.sample + rec, target := t.target + labels, status := Storing);
      var scored: Option<Trainer> :=
        if !t.isTrained then Some(stored)
        else match o.score(t.model, rec, labels)
          case None => None
          case Some(sc) =>
            Some(stored.(status := Scoring,
                         confidence := t.confidence + [Confidence(sc, t.counter, target, None)]));
      match scored
      case None => Session(stored.(status := Scoring), [Waiting, Recording, Storing, Scoring], true)
      case Some(s1) =>
        var pre := [Waiting, Recording, Storing] + (if t.isTrained then [Scoring] else []);
        var m := t.model.(nEstimators := t.model.nEstimators + 1);
        var s2 := s1.(isTrained := false, status := Training, model := m);
        match C.Fit(o, m, s2.sample, s2.target)
        case None => Session(s2, pre + [Training], true)
        case Some(m') =>
          var conf := if t.isTrained
                      then s2.confidence[..|s2.confidence| - 1]
                           + [s2.confidence[|s2.confidence| - 1].(fitTime := Some(elapsed))]
                      else s2.confidence;
          Session(s2.(model := m', confidence := conf, isTrained := true, status := Ready,
                      counter := t.counter + 1),
                  pre + [Training, Ready], false)
  }

  /** Statuses follow the fixed order, a session stopping early shows a
      prefix of it, and the trainer is left showing the last status reached. */
  lemma SessionStatuses(t: Trainer, target: int, polled: Option<seq<Frame>>,
                        o: C.Oracle<Frame, int>, elapsed: real)
    ensures var s := TrainThread(t, target, polled, o, elapsed);
      && |s.statuses| > 0 && s.statuses <= FullRun(t.isTrained)
      && s.trainer.status == s.statuses[|s.statuses| - 1]
      && (!s.died <==> s.statuses == FullRun(t.isTrained))
  {
  }

  /** A completed session stores exactly the deduplicated recording, each
      frame labelled with the target, adds one tree, counts one more session
      and ends trained; a confidence entry is added only when a model
      already existed, with the old counter, the target and the fit time. */
  lemma CompletedSession(t: Trainer, target: int, frames: seq<Frame>,
                         o: C.Oracle<Frame, int>, elapsed: real)
    ensures var s := TrainThread(t, target, Some(frames), o, elapsed);
      var rec := Dedup(frames, []);
      !s.died ==>
        && s.trainer.sample == t.sample + rec
        && s.trainer.target == t.target + Repeat(target, |rec|)
        && s.trainer.model.nEstimators == t.model.nEstimators + 1
        && s.trainer.counter == t.counter + 1
        && s.trainer.isTrained && s.trainer.model.fitted
        && (!t.isTrained ==> s.trainer.confidence == t.confidence)
        && (t.isTrained ==>
              && o.score(t.model, rec, Repeat(target, |rec|)).Some?
              && s.trainer.confidence == t.confidence
                 + [Confidence(o.score(t.model, rec, Repeat(target, |rec|)).value, t.counter, target, Some(elapsed))])
  {
  }

  /** Storing keeps every example paired with a label, whether or not the
      session completes. */
  lemma SessionKeepsPairs(t: Trainer, target: int, polled: Option<seq<Frame>>,
                          o: C.Oracle<Frame, int>, elapsed: real)
    requires |t.sample| == |t.target|
    ensures var s := TrainThread(t, target, polled, o, elapsed);
      |s.trainer.sample| == |s.trainer.target|
  {
  }

  /** A session whose polling raises, as reading the never-assigned
      `fft_data` does, stops at 'Recording Data...' with nothing stored. */
  lemma MissingFramesStopRecording(t: Trainer, target: int, o: C.Oracle<Frame, int>, elapsed: real)
    ensures var s := TrainThread(t, target, None, o, elapsed);
      s.died && s.trainer == t.(status := Recording) && s.statuses == [Waiting, Recording]
  {
  }
}
