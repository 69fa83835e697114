/**
 * The client side of a CONNECT session (grpcproxy/client.go): a local HTTP proxy
 * that authenticates the browser, opens a gRPC stream to the server, forwards the
 * CONNECT target, relays the server's answer as an HTTP response, and hijacks the
 * connection for the tunnel. Every path writes exactly one access-log record,
 * except the one where net/http panics on the server's status code.
 *
 * Opening the stream and hijacking the connection are inputs (their outcomes),
 * the stream is the scripted Stream of the wire layer, and the tunnel itself is a
 * terminal step.
 */
module Client {
  import opened Wrappers
  import opened Strings
  import opened Status
  import opened Api
  import opened Http
  import opened Server
  import opened Auth

  // ---------------------------------------------------------------------------
  // checkProxyAuth.

  /** What checkProxyAuth's delegate returns: the user it identified and its error. */
  datatype ProxyAuthReply = ProxyAuthReply(user: string, err: Option<Error>)

  /** The delegate isAuthenticated(value, authLst) as client.go calls it. */
  type ProxyAuthenticator = (string, seq<AuthItem>) -> ProxyAuthReply

  const ProxyAuthorizationKey: string := "Proxy-Authorization"

  /** checkProxyAuth: open proxy without accounts; otherwise the first Proxy-Authorization value is checked. */
  function CheckProxyAuth(r: Request, lst: seq<AuthItem>, authenticate: ProxyAuthenticator): (rep: ProxyAuthReply)
    ensures lst == [] ==> rep == ProxyAuthReply("anonymous", None)
    ensures lst != [] && ProxyAuthorizationKey !in r.header ==>
      rep == ProxyAuthReply("", Some(Plain("Proxy-Authorization header required")))
    ensures lst != [] && ProxyAuthorizationKey in r.header ==>
      rep == authenticate(r.header[ProxyAuthorizationKey][0], lst)
  {
    if |lst| == 0 then ProxyAuthReply("anonymous", None)
    else if ProxyAuthorizationKey !in r.header then ProxyAuthReply("", Some(Plain("Proxy-Authorization header required")))
    else authenticate(r.header[ProxyAuthorizationKey][0], lst)
  }

  /** With no accounts, every request passes as "anonymous", whatever its headers. */
  lemma OpenProxyAnonymous(r: Request, authenticate: ProxyAuthenticator)
    ensures CheckProxyAuth(r, [], authenticate) == ProxyAuthReply("anonymous", None)
  {
  }

  // ---------------------------------------------------------------------------
  // httpError.

  const ContentTypeKey: string := "Content-Type"
  const NoSniffKey: string := "X-Content-Type-Options"
  /** "X-Proxy-Over-GRPC-Error" as Header.Set canonicalises it. */
  const ErrorHeaderKey: string := "X-Proxy-Over-Grpc-Error"
  const ProxyAuthenticateKey: string := "Proxy-Authenticate"
  const ProxyRealm: string := "Basic realm=\"CLIENT_AUTH_* list\""

  /** The three headers httpError sets before writing the status. */
  function ErrorHeaders(h: HeaderMap, msg: string): HeaderMap {
    h[ContentTypeKey := ["text/plain; charset=utf-8"]][NoSniffKey := ["nosniff"]][ErrorHeaderKey := [msg]]
  }

  /** httpError(w, msg, code) as a change of the response, for a code WriteHeader does not panic on. */
  function ErrorResponse(resp: Response, msg: string, code: int): Response
    requires !WriteHeaderPanics(resp, code)
  {
    WriteBodyOn(WriteHeaderOn(resp.(header := ErrorHeaders(resp.header, msg)), code), msg + "\n")
  }

  /**
   * On a response with no status yet, httpError sends the given status with a
   * plain-text content type, nosniff, the message in the error header, and the
   * message plus a newline as the body when the status allows one; other headers
   * already set are kept.
   */
  lemma ErrorResponseShape(resp: Response, msg: string, code: int)
    requires resp.status.None? && ValidStatusCode(code) && !IsInformational(code)
    ensures var r := ErrorResponse(resp, msg, code);
      r.status == Some(code) && r.body == resp.body + (if BodyAllowed(code) then msg + "\n" else "") &&
      ContentTypeKey in r.sentHeader && r.sentHeader[ContentTypeKey] == ["text/plain; charset=utf-8"] &&
      NoSniffKey in r.sentHeader && r.sentHeader[NoSniffKey] == ["nosniff"] &&
      ErrorHeaderKey in r.sentHeader && r.sentHeader[ErrorHeaderKey] == [msg] &&
      forall k | k in resp.header && k !in {ContentTypeKey, NoSniffKey, ErrorHeaderKey} :: k in r.sentHeader && r.sentHeader[k] == resp.header[k]
  {
  }

  /** Once a status has been written, httpError changes neither the status nor the headers sent. */
  lemma ErrorAfterStatusKeepsStatus(resp: Response, msg: string, code: int)
    requires resp.status.Some?
    ensures var r := ErrorResponse(resp, msg, code);
      r.status == resp.status && r.sentHeader == resp.sentHeader &&
      r.body == resp.body + (if BodyAllowed(resp.status.value) then msg + "\n" else "")
  {
  }

  /**
   * An interim code is sent as such, and the body write then fixes the status at
   * 200, so the browser ends up with 200 and the error text.
   */
  lemma InformationalErrorIs200(resp: Response, msg: string, code: int)
    requires resp.status.None? && IsInformational(code)
    ensures var r := ErrorResponse(resp, msg, code);
      r.interim == resp.interim + [code] && r.status == Some(StatusOK) && r.body == resp.body + msg + "\n" &&
      r.sentHeader == ErrorHeaders(resp.header, msg)
  {
  }

  /** httpError's three Header().Set calls. */
  method SetErrorHeaders(w: ResponseWriter, msg: string)
    modifies w
    ensures w.State() == old(w.State()).(header := ErrorHeaders(old(w.header), msg))
  {
    w.SetHeader(ContentTypeKey, "text/plain; charset=utf-8");
    w.SetHeader(NoSniffKey, "nosniff");
    w.SetHeader(ErrorHeaderKey, msg);
  }

  /** httpError; for a code with WriteHeaderPanics net/http panics instead (see HandleReply). */
  method HttpError(w: ResponseWriter, msg: string, code: int)
    requires !WriteHeaderPanics(w.State(), code)
    modifies w
    ensures w.State() == ErrorResponse(old(w.State()), msg, code)
  {
    SetErrorHeaders(w, msg);
    w.WriteHeader(code);
    w.Write(msg + "\n");
  }

  // ---------------------------------------------------------------------------
  // bailOut's status mapping.

  /** An argument of bailOut: an error, or any other value. */
  datatype FmtArg = ErrorArg(err: Error) | TextArg(text: string)

  /** Some error argument carries gRPC code Unavailable or Unauthenticated. */
  predicate MakesUnavailable(args: seq<FmtArg>) {
    exists i | 0 <= i < |args| :: args[i].ErrorArg? &&
      (CodeOf(args[i].err) == Unavailable || CodeOf(args[i].err) == Unauthenticated)
  }

  function BailCode(args: seq<FmtArg>): int {
    if MakesUnavailable(args) then StatusServiceUnavailable else StatusInternalServerError
  }

  /** bailOut's loop: 503 as soon as one error argument is Unavailable or Unauthenticated, else 500. */
  method BailOutCode(args: seq<FmtArg>) returns (code: int)
    ensures code == 503 || code == 500
    ensures code == 503 <==> (exists i | 0 <= i < |args| ::
      args[i].ErrorArg? && (CodeOf(args[i].err) == Unavailable || CodeOf(args[i].err) == Unauthenticated))
  {
    code := StatusInternalServerError;
    for i := 0 to |args|
      invariant code == 503 || code == 500
      invariant code == 503 <==> (exists j | 0 <= j < i ::
        args[j].ErrorArg? && (CodeOf(args[j].err) == Unavailable || CodeOf(args[j].err) == Unauthenticated))
    {
      if !args[i].ErrorArg? {
        continue;
      }
      if CodeOf(args[i].err) == Unavailable {
        code := StatusServiceUnavailable;
      }
      if CodeOf(args[i].err) == Unauthenticated {
        code := StatusServiceUnavailable;
      }
    }
  }

  // ---------------------------------------------------------------------------
  // handleTunneling.

  /** What the hijack step finds: no Hijacker, a failing Hijack, or the raw connection. */
  datatype HijackOutcome = NotHijacker | HijackFails(err: Error) | Hijacks

  /**
   * The outcome of handleTunneling: the response, the log records, the stream,
   * whether the tunnel started, and whether the handler panicked (net/http then
   * closes the browser's connection).
   */
  datatype ClientEnd = ClientEnd(resp: Response, records: seq<LogRecord>, st: StreamState, tunneled: bool, panicked: bool)

  /** The access-log record handleTunneling's logReq writes. */
  function TunnelRecord(r: Request, user: string, code: int): LogRecord {
    LogRecord(r.host, user, r.remoteAddr, Itoa(code))
  }

  /** The end of a session that bails out with a message and its arguments. */
  function BailEnd(resp: Response, r: Request, user: string, msg: string, args: seq<FmtArg>, st: StreamState): ClientEnd {
    ClientEnd(ErrorResponse(resp, msg, BailCode(args)), [TunnelRecord(r, user, BailCode(args))], st, false, false)
  }

  /** The session handleTunneling runs, as a function of its inputs. */
  function ClientSession(resp: Response, r: Request, lst: seq<AuthItem>, authenticate: ProxyAuthenticator,
                         openErr: Option<Error>, st: StreamState, hijack: HijackOutcome): ClientEnd
  {
    var auth := CheckProxyAuth(r, lst, authenticate);
    if auth.err.Some? then
      var resp1 := resp.(header := resp.header[ProxyAuthenticateKey := [ProxyRealm]]);
      ClientEnd(ErrorResponse(resp1, Message(auth.err.value), StatusProxyAuthRequired),
                [TunnelRecord(r, auth.user, StatusProxyAuthRequired)], st, false, false)
    else OpenedSession(resp, r, auth.user, openErr, st, hijack)
  }

  /** The rest of the session once `user` is authenticated: open the stream, send ConnectRequest, await the reply. */
  function OpenedSession(resp: Response, r: Request, user: string, openErr: Option<Error>, st: StreamState,
                         hijack: HijackOutcome): ClientEnd
  {
    if openErr.Some? then
      BailEnd(resp, r, user, "grpc connection failed: " + Message(openErr.value), [ErrorArg(openErr.value)], st)
    else
      var (se, st1) := SendOn(st, ConnectRequest(r.host));
      if se.Some? then BailEnd(resp, r, user, "grpc i/o failure: " + Message(se.value), [ErrorArg(se.value)], st1)
      else
        var (rcv, st2) := RecvOn(st1);
        if rcv.Failed? then BailEnd(resp, r, user, "grpc i/o failure: " + Message(rcv.err), [ErrorArg(rcv.err)], st2)
        else AnsweredSession(resp, r, user, rcv.packet, st2, hijack)
  }

  /** The rest of the session once the server's reply has arrived: check it, then hijack. */
  function AnsweredSession(resp: Response, r: Request, user: string, reply: Packet, st: StreamState,
                           hijack: HijackOutcome): ClientEnd
  {
    match Cast(reply, ConnectResponseKind)
    case Failure(e) => BailEnd(resp, r, user, Message(e), [], st)
    case Success(p) =>
      match p.httpError
      case Some(he) =>
        if WriteHeaderPanics(resp, he.statusCode) then
          ClientEnd(resp.(header := ErrorHeaders(resp.header, he.error)), [], st, false, true)
        else
          ClientEnd(ErrorResponse(resp, he.error, he.statusCode), [TunnelRecord(r, user, he.statusCode)], st, false, false)
      case None =>
        match hijack
        case NotHijacker => BailEnd(resp, r, user, "Hijacking not supported", [], st)
        case HijackFails(e) =>
          ClientEnd(ErrorResponse(WriteHeaderOn(resp, StatusOK), Message(e), StatusServiceUnavailable),
                    [TunnelRecord(r, user, StatusServiceUnavailable)], st, false, false)
        case Hijacks => ClientEnd(WriteHeaderOn(resp, StatusOK), [TunnelRecord(r, user, StatusOK)], st, true, false)
  }

  /** httpErrorAndLog: the error response and its log record. */
  method HttpErrorAndLog(w: ResponseWriter, r: Request, user: string, msg: string, code: int) returns (rec: LogRecord)
    requires !WriteHeaderPanics(w.State(), code)
    modifies w
    ensures w.State() == ErrorResponse(old(w.State()), msg, code)
    ensures rec == LogRecord(r.host, user, r.remoteAddr, Itoa(code))
  {
    HttpError(w, msg, code);
    rec := LogRecord(r.host, user, r.remoteAddr, Itoa(code));
  }

  /** bailOut: the status from the error arguments, then httpErrorAndLog with the formatted message. */
  method BailOut(w: ResponseWriter, r: Request, user: string, msg: string, args: seq<FmtArg>) returns (rec: LogRecord)
    modifies w
    ensures w.State() == ErrorResponse(old(w.State()), msg, BailCode(args))
    ensures rec == LogRecord(r.host, user, r.remoteAddr, Itoa(BailCode(args)))
  {
    var code := BailOutCode(args);
    rec := HttpErrorAndLog(w, r, user, msg, code);
  }

  method HandleTunneling(w: ResponseWriter, r: Request, lst: seq<AuthItem>, authenticate: ProxyAuthenticator,
                         openErr: Option<Error>, stream: Stream, hijack: HijackOutcome)
    returns (records: seq<LogRecord>, tunneled: bool, panicked: bool)
    modifies w, stream
    ensures var e := ClientSession(old(w.State()), r, lst, authenticate, openErr, old(stream.State()), hijack);
      w.State() == e.resp && records == e.records && stream.State() == e.st && tunneled == e.tunneled &&
      panicked == e.panicked
  {
    ghost var resp0, st0 := w.State(), stream.State();
    var user := "-";
    var auth := CheckProxyAuth(r, lst, authenticate);
    user := auth.user;
    var rec: LogRecord;
    if auth.err.Some? {
      w.SetHeader(ProxyAuthenticateKey, ProxyRealm);
      rec := HttpErrorAndLog(w, r, user, Message(auth.err.value), StatusProxyAuthRequired);
      return [rec], false, false;
    }
    assert ClientSession(resp0, r, lst, authenticate, openErr, st0, hijack) == OpenedSession(resp0, r, user, openErr, st0, hijack);
    records, tunneled, panicked := HandleOpened(w, r, user, openErr, stream, hijack);
  }

  /** The part of handleTunneling after authentication: open, send ConnectRequest, await the reply. */
  method HandleOpened(w: ResponseWriter, r: Request, user: string, openErr: Option<Error>, stream: Stream, hijack: HijackOutcome)
    returns (records: seq<LogRecord>, tunneled: bool, panicked: bool)
    modifies w, stream
    ensures var e := OpenedSession(old(w.State()), r, user, openErr, old(stream.State()), hijack);
      w.State() == e.resp && records == e.records && stream.State() == e.st && tunneled == e.tunneled &&
      panicked == e.panicked
  {
    ghost var resp0, st0 := w.State(), stream.State();
    var rec: LogRecord;
    if openErr.Some? {
      rec := BailOut(w, r, user, "grpc connection failed: " + Message(openErr.value), [ErrorArg(openErr.value)]);
      return [rec], false, false;
    }

    var sendErr, sendLogged := Send(stream, ConnectRequest(r.host));
    if sendErr.Some? {
      var msg := "grpc i/o failure: " + Message(sendErr.value);
      assert OpenedSession(resp0, r, user, openErr, st0, hijack) == BailEnd(resp0, r, user, msg, [ErrorArg(sendErr.value)], stream.State());
      rec := BailOut(w, r, user, msg, [ErrorArg(sendErr.value)]);
      return [rec], false, false;
    }

    ghost var st1 := stream.State();
    var rcv, recvLogged := Recv(stream);
    assert (rcv, stream.State()) == RecvOn(st1);
    if rcv.Failed? {
      var msg := "grpc i/o failure: " + Message(rcv.err);
      assert OpenedSession(resp0, r, user, openErr, st0, hijack) == BailEnd(resp0, r, user, msg, [ErrorArg(rcv.err)], stream.State());
      rec := BailOut(w, r, user, msg, [ErrorArg(rcv.err)]);
      return [rec], false, false;
    }

    assert OpenedSession(resp0, r, user, openErr, st0, hijack) == AnsweredSession(resp0, r, user, rcv.packet, stream.State(), hijack);
    records, tunneled, panicked := HandleReply(w, r, user, rcv.packet, hijack, stream.State());
  }

  /** The part of handleTunneling that follows the server's reply: check it, then hijack the connection. */
  method HandleReply(w: ResponseWriter, r: Request, user: string, reply: Packet, hijack: HijackOutcome, ghost st: StreamState)
    returns (records: seq<LogRecord>, tunneled: bool, panicked: bool)
    modifies w
    ensures var e := AnsweredSession(old(w.State()), r, user, reply, st, hijack);
      w.State() == e.resp && records == e.records && tunneled == e.tunneled && panicked == e.panicked
  {
    var rec: LogRecord;
    var resp := Cast(reply, ConnectResponseKind);
    if resp.Failure? {
      rec := BailOut(w, r, user, Message(resp.error), []);
      return [rec], false, false;
    }

    if resp.value.httpError.Some? {
      var he := resp.value.httpError.value;
      if WriteHeaderPanics(w.State(), he.statusCode) {
        // httpError's WriteHeader panics; logReq is never reached.
        SetErrorHeaders(w, he.error);
        return [], false, true;
      }
      rec := HttpErrorAndLog(w, r, user, he.error, he.statusCode);
      return [rec], false, false;
    }

    if hijack.NotHijacker? {
      rec := BailOut(w, r, user, "Hijacking not supported", []);
      return [rec], false, false;
    }
    w.WriteHeader(StatusOK);

    if hijack.HijackFails? {
      rec := HttpErrorAndLog(w, r, user, Message(hijack.err), StatusServiceUnavailable);
      return [rec], false, false;
    }
    records := [LogRecord(r.host, user, r.remoteAddr, Itoa(StatusOK))];
    tunneled := true;
    panicked := false;
  }

  // ---------------------------------------------------------------------------
  // Properties of a CONNECT session.

  /** The reply the client reads after its ConnectRequest went out, if both steps succeed. */
  function ReplyOf(st: StreamState, host: string): Option<Packet> {
    var (se, st1) := SendOn(st, ConnectRequest(host));
    if se.Some? then None
    else
      var (rcv, _) := RecvOn(st1);
      if rcv.Failed? then None else Some(rcv.packet)
  }

  /** A refusal whose status code makes httpError's WriteHeader panic on `resp`. */
  predicate RefusalPanics(resp: Response, reply: Packet) {
    reply.ConnectResponse? && reply.httpError.Some? && WriteHeaderPanics(resp, reply.httpError.value.statusCode)
  }

  /**
   * Every path writes exactly one record, for the CONNECT target and the user
   * checkProxyAuth returned, except one: a refusal whose status code net/http
   * rejects makes the handler panic before logReq, with nothing sent to the browser.
   */
  lemma OneRecordPerSession(resp: Response, r: Request, lst: seq<AuthItem>, authenticate: ProxyAuthenticator,
                            openErr: Option<Error>, st: StreamState, hijack: HijackOutcome)
    ensures var e := ClientSession(resp, r, lst, authenticate, openErr, st, hijack);
      e.panicked <==> (CheckProxyAuth(r, lst, authenticate).err.None? && openErr.None? &&
        ReplyOf(st, r.host).Some? && RefusalPanics(resp, ReplyOf(st, r.host).value))
    ensures var e := ClientSession(resp, r, lst, authenticate, openErr, st, hijack);
      e.panicked ==> e.records == [] && !e.tunneled && e.resp.status == resp.status && e.resp.body == resp.body
    ensures var e := ClientSession(resp, r, lst, authenticate, openErr, st, hijack);
      !e.panicked ==> (|e.records| == 1 && e.records[0].connectAddr == r.host && e.records[0].remoteAddr == r.remoteAddr &&
        e.records[0].user == CheckProxyAuth(r, lst, authenticate).user)
  {
    var user := CheckProxyAuth(r, lst, authenticate).user;
    if CheckProxyAuth(r, lst, authenticate).err.None? {
      OpenedOneRecord(resp, r, user, openErr, st, hijack);
    }
  }

  lemma OpenedOneRecord(resp: Response, r: Request, user: string, openErr: Option<Error>, st: StreamState, hijack: HijackOutcome)
    ensures var e := OpenedSession(resp, r, user, openErr, st, hijack);
      e.panicked <==> openErr.None? && ReplyOf(st, r.host).Some? && RefusalPanics(resp, ReplyOf(st, r.host).value)
    ensures var e := OpenedSession(resp, r, user, openErr, st, hijack);
      e.panicked ==> e.records == [] && !e.tunneled && e.resp.status == resp.status && e.resp.body == resp.body
    ensures var e := OpenedSession(resp, r, user, openErr, st, hijack);
      !e.panicked ==> |e.records| == 1 && e.records[0] == LogRecord(r.host, user, r.remoteAddr, e.records[0].code)
  {
    if openErr.None? {
      var (se, st1) := SendOn(st, ConnectRequest(r.host));
      var (rcv, st2) := RecvOn(st1);
      if se.None? && rcv.Got? {
        assert ReplyOf(st, r.host) == Some(rcv.packet);
        AnsweredOneRecord(resp, r, user, rcv.packet, st2, hijack);
      }
    }
  }

  lemma AnsweredOneRecord(resp: Response, r: Request, user: string, reply: Packet, st: StreamState, hijack: HijackOutcome)
    ensures var e := AnsweredSession(resp, r, user, reply, st, hijack);
      e.panicked <==> RefusalPanics(resp, reply)
    ensures var e := AnsweredSession(resp, r, user, reply, st, hijack);
      e.panicked ==> e.records == [] && !e.tunneled && e.resp.status == resp.status && e.resp.body == resp.body
    ensures var e := AnsweredSession(resp, r, user, reply, st, hijack);
      !e.panicked ==> |e.records| == 1 && e.records[0] == LogRecord(r.host, user, r.remoteAddr, e.records[0].code)
  {
  }

  /**
   * Authenticated, with a stream that takes the ConnectRequest and then yields
   * `reply`, the session goes on with that reply.
   */
  lemma ReplyReached(resp: Response, r: Request, lst: seq<AuthItem>, authenticate: ProxyAuthenticator,
                     st: StreamState, hijack: HijackOutcome, reply: Packet)
    requires CheckProxyAuth(r, lst, authenticate).err.None? && st.sendFaults == []
    requires st.incoming != [] && st.incoming[0] == Got(reply)
    ensures ClientSession(resp, r, lst, authenticate, None, st, hijack) ==
      AnsweredSession(resp, r, CheckProxyAuth(r, lst, authenticate).user, reply,
                      RecvOn(SendOn(st, ConnectRequest(r.host)).1).1, hijack)
  {
    var user := CheckProxyAuth(r, lst, authenticate).user;
    assert ClientSession(resp, r, lst, authenticate, None, st, hijack) == OpenedSession(resp, r, user, None, st, hijack);
  }

  /**
   * With accounts configured and no Proxy-Authorization header, the answer is 407
   * with a Basic challenge, and no stream is used at all.
   */
  lemma MissingCredentialsChallenged(r: Request, lst: seq<AuthItem>, authenticate: ProxyAuthenticator,
                                     openErr: Option<Error>, st: StreamState, hijack: HijackOutcome)
    requires lst != [] && ProxyAuthorizationKey !in r.header
    ensures var e := ClientSession(FreshResponse, r, lst, authenticate, openErr, st, hijack);
      e.resp.status == Some(407) && ProxyAuthenticateKey in e.resp.sentHeader &&
      e.resp.sentHeader[ProxyAuthenticateKey] == [ProxyRealm] &&
      e.st == st && !e.tunneled && e.records[0].code == Itoa(407)
  {
  }

  /** bailOut with one error argument: 503 exactly for Unavailable and Unauthenticated. */
  lemma BailCodeOfError(err: Error)
    ensures BailCode([ErrorArg(err)]) == if CodeOf(err) == Unavailable || CodeOf(err) == Unauthenticated then 503 else 500
  {
    if CodeOf(err) == Unavailable || CodeOf(err) == Unauthenticated {
      assert [ErrorArg(err)][0].ErrorArg?;
    }
  }

  /** A stream that cannot be opened gives 503 for an Unavailable or Unauthenticated error and 500 otherwise. */
  lemma OpenFailureMapped(r: Request, lst: seq<AuthItem>, authenticate: ProxyAuthenticator,
                          err: Error, st: StreamState, hijack: HijackOutcome)
    requires CheckProxyAuth(r, lst, authenticate).err.None?
    ensures var e := ClientSession(FreshResponse, r, lst, authenticate, Some(err), st, hijack);
      e.resp.status == Some(if CodeOf(err) == Unavailable || CodeOf(err) == Unauthenticated then 503 else 500) &&
      e.resp.body == "grpc connection failed: " + Message(err) + "\n" && e.st == st && !e.tunneled
  {
    var msg := "grpc connection failed: " + Message(err);
    var user := CheckProxyAuth(r, lst, authenticate).user;
    assert ClientSession(FreshResponse, r, lst, authenticate, Some(err), st, hijack) ==
      BailEnd(FreshResponse, r, user, msg, [ErrorArg(err)], st);
    BailCodeOfError(err);
    ErrorResponseShape(FreshResponse, msg, BailCode([ErrorArg(err)]));
  }

  /** Once authenticated with a stream open, the one packet sent is ConnectRequest for the request's host. */
  lemma ConnectRequestFirst(resp: Response, r: Request, lst: seq<AuthItem>, authenticate: ProxyAuthenticator,
                            st: StreamState, hijack: HijackOutcome)
    requires CheckProxyAuth(r, lst, authenticate).err.None?
    ensures ClientSession(resp, r, lst, authenticate, None, st, hijack).st.sent == st.sent + [ConnectRequest(r.host)]
  {
  }

  /** A reply that is not a ConnectResponse fails the request with 500. */
  lemma WrongReplyIs500(r: Request, lst: seq<AuthItem>, authenticate: ProxyAuthenticator,
                        st: StreamState, hijack: HijackOutcome)
    requires CheckProxyAuth(r, lst, authenticate).err.None? && st.sendFaults == []
    requires st.incoming != [] && st.incoming[0].Got? && !st.incoming[0].packet.ConnectResponse?
    ensures var e := ClientSession(FreshResponse, r, lst, authenticate, None, st, hijack);
      e.resp.status == Some(500) && !e.tunneled
  {
    var reply := st.incoming[0].packet;
    ReplyReached(FreshResponse, r, lst, authenticate, st, hijack, reply);
    ErrorResponseShape(FreshResponse, Message(WrongPacket(reply)), 500);
  }

  /**
   * A refusal from the server with a final status code is passed on with exactly
   * its status and text, and nothing is hijacked.
   */
  lemma RefusalSurfaced(r: Request, lst: seq<AuthItem>, authenticate: ProxyAuthenticator,
                        st: StreamState, hijack: HijackOutcome, he: HTTPError)
    requires CheckProxyAuth(r, lst, authenticate).err.None? && st.sendFaults == []
    requires st.incoming != [] && st.incoming[0] == Got(ConnectResponse(Some(he)))
    requires ValidStatusCode(he.statusCode) && !IsInformational(he.statusCode)
    ensures var e := ClientSession(FreshResponse, r, lst, authenticate, None, st, hijack);
      e.resp.status == Some(he.statusCode) && e.resp.body == (if BodyAllowed(he.statusCode) then he.error + "\n" else "") &&
      ErrorHeaderKey in e.resp.sentHeader && e.resp.sentHeader[ErrorHeaderKey] == [he.error] && !e.tunneled &&
      e.records[0].code == Itoa(he.statusCode)
  {
    ReplyReached(FreshResponse, r, lst, authenticate, st, hijack, ConnectResponse(Some(he)));
    ErrorResponseShape(FreshResponse, he.error, he.statusCode);
  }

  /**
   * A refusal with a final status that allows no body (101, 204 or 304) reaches
   * the browser with that status and the error header, but the error text is dropped.
   */
  lemma RefusalWithoutBody(r: Request, lst: seq<AuthItem>, authenticate: ProxyAuthenticator,
                           st: StreamState, hijack: HijackOutcome, he: HTTPError)
    requires CheckProxyAuth(r, lst, authenticate).err.None? && st.sendFaults == []
    requires st.incoming != [] && st.incoming[0] == Got(ConnectResponse(Some(he)))
    requires ValidStatusCode(he.statusCode) && !IsInformational(he.statusCode) && !BodyAllowed(he.statusCode)
    ensures he.statusCode == 101 || he.statusCode == 204 || he.statusCode == 304
    ensures var e := ClientSession(FreshResponse, r, lst, authenticate, None, st, hijack);
      e.resp.status == Some(he.statusCode) && e.resp.body == "" &&
      ErrorHeaderKey in e.resp.sentHeader && e.resp.sentHeader[ErrorHeaderKey] == [he.error] && !e.tunneled
  {
    RefusalSurfaced(r, lst, authenticate, st, hijack, he);
  }

  /**
   * A refusal whose status code is not three digits makes httpError's WriteHeader
   * panic: the browser gets no response at all and no record is written.
   */
  lemma InvalidRefusalCodeDropsConnection(r: Request, lst: seq<AuthItem>, authenticate: ProxyAuthenticator,
                                          st: StreamState, hijack: HijackOutcome, he: HTTPError)
    requires CheckProxyAuth(r, lst, authenticate).err.None? && st.sendFaults == []
    requires st.incoming != [] && st.incoming[0] == Got(ConnectResponse(Some(he)))
    requires !ValidStatusCode(he.statusCode)
    ensures var e := ClientSession(FreshResponse, r, lst, authenticate, None, st, hijack);
      e.panicked && e.records == [] && e.resp.status.None? && e.resp.interim == [] && e.resp.body == "" && !e.tunneled
  {
    ReplyReached(FreshResponse, r, lst, authenticate, st, hijack, ConnectResponse(Some(he)));
  }

  /**
   * A refusal with an interim 1xx code reaches the browser as that interim status
   * followed by 200 and the error text, while the record keeps the 1xx code.
   */
  lemma InformationalRefusalIs200(r: Request, lst: seq<AuthItem>, authenticate: ProxyAuthenticator,
                                  st: StreamState, hijack: HijackOutcome, he: HTTPError)
    requires CheckProxyAuth(r, lst, authenticate).err.None? && st.sendFaults == []
    requires st.incoming != [] && st.incoming[0] == Got(ConnectResponse(Some(he)))
    requires IsInformational(he.statusCode)
    ensures var e := ClientSession(FreshResponse, r, lst, authenticate, None, st, hijack);
      e.resp.interim == [he.statusCode] && e.resp.status == Some(StatusOK) && e.resp.body == he.error + "\n" &&
      e.records == [TunnelRecord(r, CheckProxyAuth(r, lst, authenticate).user, he.statusCode)] && !e.tunneled
  {
    ReplyReached(FreshResponse, r, lst, authenticate, st, hijack, ConnectResponse(Some(he)));
    InformationalErrorIs200(FreshResponse, he.error, he.statusCode);
  }

  /**
   * The tunnel starts exactly when the request is authenticated, the stream opens,
   * the ConnectRequest goes out, the reply is a ConnectResponse without error and
   * the hijack succeeds; status 200 is then written before the tunnel.
   */
  lemma TunnelOnlyAfterHijack(r: Request, lst: seq<AuthItem>, authenticate: ProxyAuthenticator,
                              openErr: Option<Error>, st: StreamState, hijack: HijackOutcome)
    ensures var e := ClientSession(FreshResponse, r, lst, authenticate, openErr, st, hijack);
      e.tunneled <==> (CheckProxyAuth(r, lst, authenticate).err.None? && openErr.None? &&
        SendOn(st, ConnectRequest(r.host)).0.None? &&
        RecvOn(SendOn(st, ConnectRequest(r.host)).1).0 == Got(ConnectResponse(None)) && hijack == Hijacks)
    ensures var e := ClientSession(FreshResponse, r, lst, authenticate, openErr, st, hijack);
      e.tunneled ==> e.resp.status == Some(200) && e.records[0].code == Itoa(200)
  {
    var auth := CheckProxyAuth(r, lst, authenticate);
    if auth.err.None? {
      assert ClientSession(FreshResponse, r, lst, authenticate, openErr, st, hijack) ==
        OpenedSession(FreshResponse, r, auth.user, openErr, st, hijack);
      OpenedTunnel(FreshResponse, r, auth.user, openErr, st, hijack);
    }
  }

  lemma OpenedTunnel(resp: Response, r: Request, user: string, openErr: Option<Error>, st: StreamState, hijack: HijackOutcome)
    requires resp.status.None?
    ensures var e := OpenedSession(resp, r, user, openErr, st, hijack);
      e.tunneled <==> (openErr.None? && SendOn(st, ConnectRequest(r.host)).0.None? &&
        RecvOn(SendOn(st, ConnectRequest(r.host)).1).0 == Got(ConnectResponse(None)) && hijack == Hijacks)
    ensures var e := OpenedSession(resp, r, user, openErr, st, hijack);
      e.tunneled ==> e.resp.status == Some(200) && e.records[0].code == Itoa(200)
  {
    if openErr.None? {
      var (se, st1) := SendOn(st, ConnectRequest(r.host));
      var (rcv, st2) := RecvOn(st1);
      if se.None? && rcv.Got? {
        assert OpenedSession(resp, r, user, openErr, st, hijack) == AnsweredSession(resp, r, user, rcv.packet, st2, hijack);
        AnsweredTunnel(resp, r, user, rcv.packet, st2, hijack);
      }
    }
  }

  lemma AnsweredTunnel(resp: Response, r: Request, user: string, reply: Packet, st: StreamState, hijack: HijackOutcome)
    requires resp.status.None?
    ensures var e := AnsweredSession(resp, r, user, reply, st, hijack);
      e.tunneled <==> (reply == ConnectResponse(None) && hijack == Hijacks)
    ensures var e := AnsweredSession(resp, r, user, reply, st, hijack);
      e.tunneled ==> e.resp.status == Some(200) && e.records[0].code == Itoa(200)
  {
  }

  /**
   * A failed hijack comes after status 200 was written: the browser keeps the 200
   * while the access log records 503.
   */
  lemma HijackFailureKeeps200(r: Request, lst: seq<AuthItem>, authenticate: ProxyAuthenticator,
                              st: StreamState, err: Error)
    requires CheckProxyAuth(r, lst, authenticate).err.None? && st.sendFaults == []
    requires st.incoming != [] && st.incoming[0] == Got(ConnectResponse(None))
    ensures var e := ClientSession(FreshResponse, r, lst, authenticate, None, st, HijackFails(err));
      e.resp.status == Some(200) && ErrorHeaderKey !in e.resp.sentHeader &&
      e.records[0].code == Itoa(503) && !e.tunneled
  {
    ReplyReached(FreshResponse, r, lst, authenticate, st, HijackFails(err), ConnectResponse(None));
  }

  // ---------------------------------------------------------------------------
  // Client and server together.

  /**
   * A CONNECT through both ends when the target can be dialled: the client sends
   * the one ConnectRequest the server expects, the server answers without error,
   * and both ends start the tunnel, the browser seeing 200.
   */
  lemma HandshakeTunnels(r: Request, lst: seq<AuthItem>, authenticate: ProxyAuthenticator,
                         identity: Option<string>, peer: Option<string>, dial: Dialer)
    requires CheckProxyAuth(r, lst, authenticate).err.None? && dial(r.host).None?
    ensures var server := ServerSession(StreamState([Got(ConnectRequest(r.host))], [], [], []), identity, peer, dial);
      var client := ClientSession(FreshResponse, r, lst, authenticate, None,
                                  StreamState(Incoming(server.st.delivered), [], [], []), Hijacks);
      client.st.delivered == [ConnectRequest(r.host)] &&
      server.statusErr.None? && server.tunneled && server.records[0].code == "OK" &&
      client.tunneled && client.resp.status == Some(200)
  {
  }

  /**
   * A CONNECT whose target cannot be dialled: the server's 503 and the dial error's
   * text reach the browser as the status, the error header and the body, and
   * neither end starts a tunnel.
   */
  lemma HandshakeDialFailure(r: Request, lst: seq<AuthItem>, authenticate: ProxyAuthenticator,
                             identity: Option<string>, peer: Option<string>, dial: Dialer, hijack: HijackOutcome)
    requires CheckProxyAuth(r, lst, authenticate).err.None? && dial(r.host).Some?
    ensures var server := ServerSession(StreamState([Got(ConnectRequest(r.host))], [], [], []), identity, peer, dial);
      var client := ClientSession(FreshResponse, r, lst, authenticate, None,
                                  StreamState(Incoming(server.st.delivered), [], [], []), hijack);
      var text := Message(dial(r.host).value);
      server.statusErr == dial(r.host) && !server.tunneled &&
      client.resp.status == Some(503) && ErrorHeaderKey in client.resp.sentHeader &&
      client.resp.sentHeader[ErrorHeaderKey] == [text] &&
      client.resp.body == text + "\n" && !client.tunneled
  {
    var server := ServerSession(StreamState([Got(ConnectRequest(r.host))], [], [], []), identity, peer, dial);
    assert server.st.delivered == [ConnectResponse(Some(HTTPError(503, Message(dial(r.host).value))))];
    RefusalSurfaced(r, lst, authenticate, StreamState(Incoming(server.st.delivered), [], [], []), hijack,
                    HTTPError(503, Message(dial(r.host).value)));
  }

  // ---------------------------------------------------------------------------
  // ProxyHandler.

  /** http.ServeMux.Handler: the pattern matching a request, "" when none does. */
  type MuxMatcher = Request -> string

  /** Where ProxyHandler sends a request. */
  datatype Route = Tunnel | Metrics | NotImplemented

  /** HandleMux's test: a metrics mux is configured and has a pattern for the request. */
  predicate MuxHandles(mux: Option<MuxMatcher>, r: Request) {
    mux.Some? && mux.value(r) != ""
  }

  function ProxyRoute(r: Request, mux: Option<MuxMatcher>): (route: Route)
    ensures route == Tunnel <==> r.verb == MethodConnect
    ensures route == Metrics <==> r.verb != MethodConnect && MuxHandles(mux, r)
  {
    if r.verb == MethodConnect then Tunnel
    else if MuxHandles(mux, r) then Metrics
    else NotImplemented
  }

  /**
   * ProxyHandler: CONNECT is tunnelled; anything else goes to the metrics mux when
   * it matches (its handler's response is not part of this model), else 501.
   */
  method ProxyHandler(w: ResponseWriter, r: Request, lst: seq<AuthItem>, authenticate: ProxyAuthenticator,
                      mux: Option<MuxMatcher>, openErr: Option<Error>, stream: Stream, hijack: HijackOutcome)
    returns (route: Route, records: seq<LogRecord>, tunneled: bool, panicked: bool)
    modifies w, stream
    ensures route == ProxyRoute(r, mux)
    ensures route == Tunnel ==>
      var e := ClientSession(old(w.State()), r, lst, authenticate, openErr, old(stream.State()), hijack);
      w.State() == e.resp && records == e.records && stream.State() == e.st && tunneled == e.tunneled &&
      panicked == e.panicked
    ensures route == Metrics ==>
      w.State() == old(w.State()) && stream.State() == old(stream.State()) && records == [] && !tunneled && !panicked
    ensures route == NotImplemented ==>
      w.State() == ErrorResponse(old(w.State()), "Not implemented", StatusNotImplemented) &&
      stream.State() == old(stream.State()) && records == [] && !tunneled && !panicked
  {
    if r.verb == MethodConnect {
      records, tunneled, panicked := HandleTunneling(w, r, lst, authenticate, openErr, stream, hijack);
      return Tunnel, records, tunneled, panicked;
    }
    if mux.Some? && mux.value(r) != "" {
      return Metrics, [], false, false;
    }
    HttpError(w, "Not implemented", StatusNotImplemented);
    return NotImplemented, [], false, false;
  }
}
