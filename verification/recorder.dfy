/** The `record` / `_save` pair that the connectors and processors share: a
    non-re-entrant guard around a timed subscription that collects the
    values published while it lasts. The timed window itself is abstracted:
    `Capture` is what the subscription does with values published while
    recording, `Save` is its completion. */
module Recorder {

  datatype Recorder<T> = Recorder(isRecording: bool, recorded: seq<T>)

  function Idle<T>(): (r: Recorder<T>)
    ensures !r.isRecording && r.recorded == []
  {
    Recorder(false, [])
  }

  /** `record`: starts a fresh recording unless one is running, in which
      case it only prints 'Already recording...'. */
  function Start<T>(r: Recorder<T>): (r': Recorder<T>)
    ensures r'.isRecording
    ensures r.isRecording ==> r' == r
    ensures !r.isRecording ==> r'.recorded == []
  {
    if r.isRecording then r else Recorder(true, [])
  }

  /** The subscription appending every value it sees while recording. */
  function Capture<T>(r: Recorder<T>, vs: seq<T>): (r': Recorder<T>)
    ensures r'.isRecording == r.isRecording
    ensures r'.recorded == if r.isRecording then r.recorded + vs else r.recorded
  {
    if r.isRecording then Recorder(true, r.recorded + vs) else r
  }

  /** `_save`: writes the recording (file output not modelled) and clears the
      flag; the recorded values stay until the next `record`. */
  function Save<T>(r: Recorder<T>): (r': Recorder<T>)
    ensures !r'.isRecording && r'.recorded == r.recorded
  {
    Recorder(false, r.recorded)
  }

  /** A second `record` while recording changes nothing; after `_save` a
      `record` starts afresh. */
  lemma StartGuard<T>(r: Recorder<T>, vs: seq<T>)
    ensures Start(Start(r)) == Start(r)
    ensures Start(Capture(Start(r), vs)) == Capture(Start(r), vs)
    ensures Start(Save(Capture(Start(r), vs))) == Recorder(true, [])
  {
  }

  /** A recording started from idle holds exactly what was captured since. */
  lemma RecordingHoldsCaptured<T>(r: Recorder<T>, vs: seq<T>, ws: seq<T>)
    requires !r.isRecording
    ensures Save(Capture(Capture(Start(r), vs), ws)).recorded == vs + ws
  {
  }
}
