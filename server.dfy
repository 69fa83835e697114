/**
 * The server side of a CONNECT session (grpcproxy/server.go): read the client's
 * ConnectRequest, dial the target, answer with a ConnectResponse, record the
 * session's outcome as the gRPC status of the call, and write one access-log
 * record per session.
 *
 * The caller's identity (from the stream's context), the peer address and the
 * outcome of dialling a host are inputs. Starting the tunnel is a terminal step.
 */
module Server {
  import opened Wrappers
  import opened Strings
  import opened Status
  import opened Api

  /** One access-log entry. */
  datatype LogRecord = LogRecord(connectAddr: string, user: string, remoteAddr: string, code: string)

  /** disableAccessLogging: set by any non-empty DISABLE_ACCESS_LOGGING ("" when unset). */
  function AccessLoggingDisabled(envValue: string): (disabled: bool)
    ensures disabled <==> |envValue| > 0
  {
    envValue != ""
  }

  /** The space-separated fields of a log line, before the newline. */
  function LogFields(rec: LogRecord, stamp: string): seq<string> {
    ["pog:", rec.connectAddr, rec.user, "HTTPS", rec.remoteAddr, "[" + stamp + "]", rec.code]
  }

  /** logRequest: nothing when access logging is disabled, else one line stamped with the RFC 3339 time. */
  function LogRequest(rec: LogRecord, disabled: bool, stamp: string): (line: Option<string>)
    ensures disabled <==> line.None?
    ensures line.Some? ==> HasPrefix(line.value, "pog: ") && line.value[|line.value| - 1] == '\n'
  {
    if disabled then None
    else
      Some("pog: " + rec.connectAddr + " " + rec.user + " HTTPS " + rec.remoteAddr + " [" + stamp + "] " + rec.code + "\n")
  }

  lemma LogFieldsJoined(rec: LogRecord, stamp: string)
    ensures Join(LogFields(rec, stamp), ' ') ==
      "pog:" + " " + (rec.connectAddr + " " + (rec.user + " " + ("HTTPS" + " " +
        (rec.remoteAddr + " " + ("[" + stamp + "]" + " " + rec.code)))))
  {
    var fs := LogFields(rec, stamp);
    assert Join(fs[6..], ' ') == rec.code;
    assert Join(fs[5..], ' ') == "[" + stamp + "]" + " " + rec.code;
    assert Join(fs[4..], ' ') == rec.remoteAddr + " " + Join(fs[5..], ' ');
    assert Join(fs[3..], ' ') == "HTTPS" + " " + Join(fs[4..], ' ');
    assert Join(fs[2..], ' ') == rec.user + " " + Join(fs[3..], ' ');
    assert Join(fs[1..], ' ') == rec.connectAddr + " " + Join(fs[2..], ' ');
  }

  /** A log line is its fields joined by single spaces, then a newline. */
  lemma LogLineJoinsFields(rec: LogRecord, stamp: string)
    ensures LogRequest(rec, false, stamp).value == Join(LogFields(rec, stamp), ' ') + "\n"
  {
    LogFieldsJoined(rec, stamp);
  }

  /** When no field holds a space, a log line splits back into its record. */
  lemma LogLineFieldsRecoverable(rec: LogRecord, stamp: string)
    requires ' ' !in rec.connectAddr && ' ' !in rec.user && ' ' !in rec.remoteAddr && ' ' !in rec.code && ' ' !in stamp
    ensures var line := LogRequest(rec, false, stamp).value;
      var fields := Split(line[..|line| - 1], ' ');
      |fields| == 7 && fields[1] == rec.connectAddr && fields[2] == rec.user &&
      fields[4] == rec.remoteAddr && fields[6] == rec.code
  {
    var fs := LogFields(rec, stamp);
    var line := LogRequest(rec, false, stamp).value;
    assert ' ' !in "[" + stamp + "]";
    LogLineJoinsFields(rec, stamp);
    SplitJoin(fs, ' ');
    assert line[..|line| - 1] == Join(fs, ' ');
  }

  /** The outcome of one doRun: the status error, the log records, the stream, whether the tunnel started. */
  datatype ServerEnd = ServerEnd(statusErr: Option<Error>, records: seq<LogRecord>, st: StreamState, tunneled: bool)

  /** Outcome of net.DialTimeout("tcp", hostPort, 10s): None when connected. */
  type Dialer = string -> Option<Error>

  /** The session doRun runs, as a function of the stream and the inputs. */
  function ServerSession(st: StreamState, identity: Option<string>, peer: Option<string>, dial: Dialer): ServerEnd {
    var user := identity.GetOr("anonymous");
    var remote := peer.GetOr("-");
    var (rcv, st1) := RecvOn(st);
    if rcv.Failed? then
      ServerEnd(Some(rcv.err), [LogRecord("-", user, remote, CodeName(CodeOf(rcv.err)))], st1, false)
    else
      match Cast(rcv.packet, ConnectRequestKind)
      case Failure(e) =>
        ServerEnd(Some(StatusError(FailedPrecondition, Message(e))),
                  [LogRecord("-", user, remote, CodeName(FailedPrecondition))], st1, false)
      case Success(req) =>
        var addr := req.hostPort;
        match dial(addr)
        case Some(de) =>
          var (_, st2) := SendOn(st1, ConnectResponse(Some(HTTPError(503, Message(de)))));
          ServerEnd(Some(de), [LogRecord(addr, user, remote, CodeName(CodeOf(de)))], st2, false)
        case None =>
          var (se, st2) := SendOn(st1, ConnectResponse(None));
          if se.Some? then ServerEnd(se, [LogRecord(addr, user, remote, CodeName(CodeOf(se.value)))], st2, false)
          else ServerEnd(None, [LogRecord(addr, user, remote, CodeName(OK))], st2, true)
  }

  /** The `statusErr *error` doRun writes through. */
  class StatusSlot {
    var err: Option<Error>

    constructor ()
      ensures err == None
    {
      err := None;
    }
  }

  /**
   * sendConnectResponse: sends a ConnectResponse and returns the send error, or
   * else the value `captured` of doRun's own err variable, which the closure shares.
   */
  method SendConnectResponse(stream: Stream, httpErr: Option<HTTPError>, captured: Option<Error>) returns (err: Option<Error>)
    modifies stream
    ensures var (se, st') := SendOn(old(stream.State()), ConnectResponse(httpErr));
      stream.State() == st' && err == (if se.Some? then se else captured)
  {
    var logged;
    err, logged := Send(stream, ConnectResponse(httpErr));
    if err.Some? {
      return;
    }
    err := captured;
  }

  /** doRun: every return path after a failure goes through bailOut, which sets *statusErr and logs. */
  method DoRun(stream: Stream, statusErr: StatusSlot, identity: Option<string>, peer: Option<string>, dial: Dialer)
    returns (records: seq<LogRecord>, tunneled: bool)
    modifies stream, statusErr
    ensures var e := ServerSession(old(stream.State()), identity, peer, dial);
      records == e.records && stream.State() == e.st && tunneled == e.tunneled &&
      statusErr.err == (if e.statusErr.Some? then e.statusErr else old(statusErr.err))
  {
    var user := "anonymous";
    if identity.Some? {
      user := identity.value;
    }
    var connectAddr := "-";
    var remoteAddr := "-";
    if peer.Some? {
      remoteAddr := peer.value;
    }

    var rcv, logged := Recv(stream);
    if rcv.Failed? {
      statusErr.err := Some(rcv.err);
      return [LogRecord(connectAddr, user, remoteAddr, CodeName(CodeOf(rcv.err)))], false;
    }
    var cast := Cast(rcv.packet, ConnectRequestKind);
    if cast.Failure? {
      var err := StatusError(FailedPrecondition, Message(cast.error));
      statusErr.err := Some(err);
      return [LogRecord(connectAddr, user, remoteAddr, CodeName(CodeOf(err)))], false;
    }
    connectAddr := cast.value.hostPort;

    var dialErr := dial(connectAddr);
    if dialErr.Some? {
      var ignored := SendConnectResponse(stream, Some(HTTPError(503, Message(dialErr.value))), dialErr);
      statusErr.err := dialErr;
      return [LogRecord(connectAddr, user, remoteAddr, CodeName(CodeOf(dialErr.value)))], false;
    }

    var sendErr := SendConnectResponse(stream, None, dialErr);
    if sendErr.Some? {
      statusErr.err := sendErr;
      return [LogRecord(connectAddr, user, remoteAddr, CodeName(CodeOf(sendErr.value)))], false;
    }
    records := [LogRecord(connectAddr, user, remoteAddr, CodeName(OK))];
    tunneled := true;
  }

  /** httpProxyServer.Run: returns the status error doRun recorded, nil if it recorded none. */
  method Run(stream: Stream, identity: Option<string>, peer: Option<string>, dial: Dialer)
    returns (err: Option<Error>, records: seq<LogRecord>, tunneled: bool)
    modifies stream
    ensures var e := ServerSession(old(stream.State()), identity, peer, dial);
      err == e.statusErr && records == e.records && stream.State() == e.st && tunneled == e.tunneled
  {
    var slot := new StatusSlot();
    records, tunneled := DoRun(stream, slot, identity, peer, dial);
    err := slot.err;
  }

  // ---------------------------------------------------------------------------
  // Properties of a session.

  /** Every session receives once and writes exactly one record, for the identified user or "anonymous". */
  lemma OneRecordPerSession(st: StreamState, identity: Option<string>, peer: Option<string>, dial: Dialer)
    ensures var e := ServerSession(st, identity, peer, dial);
      |e.records| == 1 && e.records[0].user == identity.GetOr("anonymous") &&
      e.records[0].remoteAddr == peer.GetOr("-") &&
      e.st.incoming == (if st.incoming == [] then [] else st.incoming[1..])
  {
  }

  /** A failed first receive is the status error, logged with its code; nothing is sent. */
  lemma RecvFailureSendsNothing(st: StreamState, identity: Option<string>, peer: Option<string>, dial: Dialer, err: Error)
    requires st.incoming == [] ==> err == EOF
    requires st.incoming != [] ==> st.incoming[0] == Failed(err)
    ensures var e := ServerSession(st, identity, peer, dial);
      e.statusErr == Some(err) && e.st.sent == st.sent && !e.tunneled &&
      e.records[0].connectAddr == "-" && e.records[0].code == CodeName(CodeOf(err))
  {
  }

  /** A first packet that is not a ConnectRequest fails the call with FailedPrecondition; nothing is sent. */
  lemma NonConnectRequestRejected(st: StreamState, identity: Option<string>, peer: Option<string>, dial: Dialer)
    requires st.incoming != [] && st.incoming[0].Got? && !st.incoming[0].packet.ConnectRequest?
    ensures var e := ServerSession(st, identity, peer, dial);
      e.statusErr.Some? && CodeOf(e.statusErr.value) == FailedPrecondition &&
      e.st.sent == st.sent && !e.tunneled && e.records[0].connectAddr == "-"
  {
  }

  /**
   * A dial failure sends exactly one ConnectResponse carrying 503 and the dial
   * error's text, whether or not that send succeeds; the dial error is the status.
   */
  lemma DialFailureReported(st: StreamState, identity: Option<string>, peer: Option<string>, dial: Dialer, host: string)
    requires st.incoming != [] && st.incoming[0] == Got(ConnectRequest(host)) && dial(host).Some?
    ensures var e := ServerSession(st, identity, peer, dial);
      e.statusErr == dial(host) && !e.tunneled &&
      e.st.sent == st.sent + [ConnectResponse(Some(HTTPError(503, Message(dial(host).value))))] &&
      e.records[0].connectAddr == host
  {
  }

  /**
   * After a successful dial the one packet sent is ConnectResponse without error;
   * the tunnel starts, with no status error and an OK record, exactly when that send succeeds.
   */
  lemma DialSuccessAnswered(st: StreamState, identity: Option<string>, peer: Option<string>, dial: Dialer, host: string)
    requires st.incoming != [] && st.incoming[0] == Got(ConnectRequest(host)) && dial(host).None?
    ensures var e := ServerSession(st, identity, peer, dial);
      var (se, _) := SendOn(st.(incoming := st.incoming[1..]), ConnectResponse(None));
      e.st.sent == st.sent + [ConnectResponse(None)] && e.records[0].connectAddr == host &&
      (e.tunneled <==> se.None?) && e.statusErr == se &&
      (e.tunneled ==> e.records[0].code == "OK")
  {
  }

  /** The tunnel starts only with no status error, after a ConnectRequest was accepted and answered without error. */
  lemma TunnelOnlyAfterHandshake(st: StreamState, identity: Option<string>, peer: Option<string>, dial: Dialer)
    ensures var e := ServerSession(st, identity, peer, dial);
      e.tunneled <==> (e.statusErr.None? && st.incoming != [] && st.incoming[0].Got? &&
        st.incoming[0].packet.ConnectRequest? && e.st.delivered == st.delivered + [ConnectResponse(None)])
  {
  }
}
