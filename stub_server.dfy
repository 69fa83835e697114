/**
 * The older stand-alone server's Run (grpcproxy/server/main.go): it performs the
 * CONNECT handshake on the raw stream and then gives up with Unimplemented.
 */
module StubServer {
  import opened Wrappers
  import opened Status
  import opened Api

  /** The error Run returns and the stream it leaves. */
  function StubSession(st: StreamState): (Error, StreamState) {
    var (rcv, st1) := RecvOn(st);
    if rcv.Failed? then
      (StatusError(FailedPrecondition, "stream.Recv failed: " + Message(rcv.err)), st1)
    else if !rcv.packet.ConnectRequest? then
      (StatusError(FailedPrecondition, "ConnectRequest packet expected but got: " + UnionText(rcv.packet)), st1)
    else
      var (se, st2) := SendOn(st1, ConnectResponse(None));
      if se.Some? then (se.value, st2) else (StatusError(Unimplemented, "not implemented"), st2)
  }

  method Run(stream: Stream) returns (err: Error)
    modifies stream
    ensures (err, stream.State()) == StubSession(old(stream.State()))
  {
    var rcv := stream.Recv();
    if rcv.Failed? {
      return StatusError(FailedPrecondition, "stream.Recv failed: " + Message(rcv.err));
    }
    if !rcv.packet.ConnectRequest? {
      return StatusError(FailedPrecondition, "ConnectRequest packet expected but got: " + UnionText(rcv.packet));
    }
    var sendErr := stream.Send(ConnectResponse(None));
    if sendErr.Some? {
      return sendErr.value;
    }
    err := StatusError(Unimplemented, "not implemented");
  }

  /** Without a ConnectRequest first, the call fails with FailedPrecondition and sends nothing. */
  lemma StubRejectsWithoutRequest(st: StreamState)
    requires st.incoming == [] || st.incoming[0].Failed? || !st.incoming[0].packet.ConnectRequest?
    ensures var (err, st') := StubSession(st);
      CodeOf(err) == FailedPrecondition && st'.sent == st.sent
  {
  }

  /**
   * After a ConnectRequest exactly one ConnectResponse without error is sent; the
   * call then fails with that send's error unchanged, or else with Unimplemented.
   */
  lemma StubAnswersThenGivesUp(st: StreamState, host: string)
    requires st.incoming != [] && st.incoming[0] == Got(ConnectRequest(host))
    ensures var (err, st') := StubSession(st);
      var (se, _) := SendOn(st.(incoming := st.incoming[1..]), ConnectResponse(None));
      st'.sent == st.sent + [ConnectResponse(None)] &&
      (se.Some? ==> err == se.value) &&
      (se.None? ==> CodeOf(err) == Unimplemented && st'.delivered == st.delivered + [ConnectResponse(None)])
  {
  }
}
