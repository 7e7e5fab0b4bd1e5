/** The connector of `neurosky/_connector.py`. Its state, chunk loop,
    synthetic source, timer, `record`/`_save` and `close` behave as in
    `src/neurosky/connector.py` and are shared with that model; what differs
    is the error handling of `_generate_data`: every exception of the connect
    or read loop is caught, closes the connector and is not re-raised. */
module PkgConnector {
  import opened Ingest
  import Src = SrcConnector

  /** How the read loop ends: still waiting, left because the connector was
      closed, or closed by the catch-all handler after any exception. */
  datatype Ending = Pending | LoopExit | ClosedOnError

  datatype Run = Run(connector: Src.Connector, ending: Ending)

  /** The read loop with its catch-all handler: no exception leaves it, and
      every failure leaves the connector closed with its subjects disposed. */
  function Stream(c: Src.Connector, decode: Decoder, recvs: seq<Src.Recv>): (r: Run)
    ensures r.ending.ClosedOnError? ==> r.connector == Src.Close(r.connector)
    ensures r.ending.ClosedOnError? ==> !r.connector.isOpen && r.connector.rate.disposed
    ensures r.ending.Pending? ==> r.connector.isOpen
    ensures !c.isOpen ==> r == Run(c, LoopExit)
    ensures (forall i | 0 <= i < |recvs| :: recvs[i].Chunk?) && c.isOpen ==> r.ending == Pending
    ensures c.streams.outlets.data.log <= r.connector.streams.outlets.data.log
    ensures Src.Consistent(c) ==> Src.Consistent(r.connector)
    decreases |recvs|
  {
    if !c.isOpen then Run(c, LoopExit)
    else if |recvs| == 0 then Run(c, Pending)
    else match recvs[0]
      case Chunk(text) =>
        assert forall i | 0 <= i < |recvs[1..]| :: recvs[1..][i] == recvs[i + 1];
        Stream(Src.ReceiveChunk(c, decode, text), decode, recvs[1..])
      case ConnectionLost =>
        Src.CloseIdempotent(c);
        Run(Src.Close(c), ClosedOnError)
      case OtherFailure =>
        Src.CloseIdempotent(c);
        Run(Src.Close(c), ClosedOnError)
  }

  /** Connect, handshake and read loop under the same catch-all handler. */
  function Connect(c: Src.Connector, decode: Decoder, connected: bool, recvs: seq<Src.Recv>): (r: Run)
    ensures !connected ==> r == Run(Src.Close(c), ClosedOnError)
    ensures connected ==> r == Stream(c, decode, recvs)
  {
    if !connected then Run(Src.Close(c), ClosedOnError) else Stream(c, decode, recvs)
  }

  /** The loop treats a connection error and any other exception alike,
      where the `src` connector re-raises the first and dies on the second. */
  lemma FailuresCloseQuietly(c: Src.Connector, decode: Decoder, f: Src.Recv, rest: seq<Src.Recv>)
    requires c.isOpen && !f.Chunk?
    ensures Stream(c, decode, [f] + rest) == Run(Src.Close(c), ClosedOnError)
    ensures f.ConnectionLost? ==> Src.Stream(c, decode, [f] + rest).ending == Src.ConnectionErrorRaised
    ensures f.OtherFailure? ==> Src.Stream(c, decode, [f] + rest) == Src.Run(c, Src.Crashed)
  {
  }
}
