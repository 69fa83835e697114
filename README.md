# A verified model of pog-server's gRPC proxy core

pog-server tunnels HTTPS through gRPC. A local client (`grpcproxy/client.go`) acts as an HTTP
proxy for a browser. It authenticates the browser, opens a bidirectional gRPC stream to the server,
sends a `ConnectRequest` carrying the `CONNECT` target and waits for a `ConnectResponse`. If the
response is good, it hijacks the browser's connection and relays bytes as `Payload` packets. The
server (`grpcproxy/server.go`) reads the `ConnectRequest`, dials the target and answers. It records
the session's outcome as the gRPC status of the call and writes one access-log line per session.
Clients are authenticated with HTTP Basic credentials carried in gRPC metadata. Those credentials are
checked against accounts read from `POG_AUTH_*` environment entries (`grpcproxy/auth.go`).

This Dafny project models that core and proves properties of it:

| file | models |
|---|---|
| `wrappers.dfy` | `Option` and `Result` |
| `status.dfy` | gRPC status codes and Go's error values: `io.EOF`, `status.Error`, plain errors |
| `strings.dfy` | the few `strings`, `strconv` and byte/character conversions used |
| `base64.dfy` | the standard base64 alphabet with padding (RFC 4648, section 4), as `base64.StdEncoding` encodes and decodes |
| `api.dfy` | packets, the stream, `Send`/`Recv`, `castFromUnion`, and the stream writer and reader |
| `auth.dfy` | `isAuthenticated`, the interceptors, `GetRequestMetadata` and `ParseAuthList` |
| `http.dfy` | requests, header maps and a response writer that follows `net/http`'s rules (Go 1.19 and later) |
| `server.dfy` | `LogRecord`, `logRequest`, `doRun` and `Run` |
| `client.dfy` | `httpError`, `checkProxyAuth`, `bailOut`, `handleTunneling` and `ProxyHandler` |
| `stub_server.dfy` | the stand-alone server's `Run` in `grpcproxy/server/main.go` |
| `mux.dfy` | the gRPC/HTTP listener split in `grpcproxy/server/http.go` |

Modelling choices:

- **Streams.** A stream is a `Stream` class over a scripted list of receive results and a scripted
  list of send faults:
  - Past the end of the receive script, `Recv` returns `io.EOF`.
  - Past the end of the fault script, `Send` succeeds.
  - The class logs every packet sent, and separately every packet delivered to the peer.
- **Sessions as functions.** The pure `StreamState` with `RecvOn`/`SendOn` is the specification of
  the stream. Each session is a function of its inputs:
  - `ServerSession` for the server;
  - `ClientSession`, in three stages, for the client;
  - `StubSession` for the stand-alone server.

  The imperative methods (`Server.Run`, `Client.HandleTunneling`, `StubServer.Run`) are proved equal
  to them. The lemmas state the properties of those functions.
- **Inputs for what the core does not compute.** The following are parameters:
  - the bcrypt check;
  - the current time (an integer on the scale of the accounts' expiry dates);
  - the JSON and RFC 3339 decoders;
  - the outcome of dialling a host;
  - the outcome of opening the client stream;
  - the outcome of hijacking the connection;
  - the caller's identity and peer address.
- **Go strings** are `string` values whose characters are bytes (codes below 256).

Behaviour of the code that is easy to misread:

- An empty `Payload` makes the reader return `io.EOF` at once: `bytes.Buffer.Read` on an empty
  buffer gives `io.EOF`. The reader does not retry. See `Api.EmptyPayloadEndsRead`.
- The first account whose name matches decides the outcome, even when a later account with the same
  name would accept. See `Auth.LaterItemsIgnored` and `Auth.DuplicateNameShadows`. The two readings
  agree when names are unique; see `Auth.LookupUniqueNames`.
- Malformed `POG_AUTH_` entries are skipped, and parsing goes on (`Auth.SkipsMalformed`).
- A failed hijack comes after status 200 was written. The browser keeps the 200 and no error header,
  while the access log records 503 (`Client.HijackFailureKeeps200`).
- The client passes the server's `StatusCode` straight to `WriteHeader`. With a code outside 100–999,
  `net/http` panics inside `httpError`: the connection to the browser is dropped and no access-log
  record is written (`Client.InvalidRefusalCodeDropsConnection`). With an interim 1xx code other than
  101, the browser gets that interim status and then 200 with the error text, while the record keeps
  the 1xx code (`Client.InformationalRefusalIs200`). With 101, 204 or 304 the browser gets that status
  and the error header, but `net/http` drops the body (`Client.RefusalWithoutBody`). The server in this
  repository only ever sends 503.

## Model

| member | source | states |
|---|---|---|
| Status.CodeOf | grpcproxy/api.go:28 | errors without a gRPC status have code Unknown; a status error has its own code |
| Strings.IndexOf | grpcproxy/auth.go:37 | the result is the first position of the character; None exactly when the character does not occur |
| Strings.IndexOfJoin | grpcproxy/auth.go:37-42 | in `left + ":" + right` with no ':' in `left`, the first ':' is at `|left|` |
| Strings.TrimPrefix | grpcproxy/auth.go:29 | the prefix is removed when present; otherwise the string is unchanged |
| Strings.TrimPrefixJoin | grpcproxy/auth.go:29 | trimming a prefix from `prefix + rest` gives `rest` |
| Strings.CharsOf | grpcproxy/auth.go:36 | string(b) has one character per byte, and character i has the value of byte i |
| Strings.CharsOfBytesOf | grpcproxy/auth.go:157 | for a byte string, string([]byte(s)) == s |
| Base64.Encode | grpcproxy/auth.go:157 | the encoding is padded to a multiple of 4 characters and is empty only for empty input |
| Base64.EncodeHasNoNewlines | grpcproxy/auth.go:157 | the encoding contains no CR or LF |
| Base64.QuantumRoundTrip | grpcproxy/auth.go:31 | a full 4-character quantum decodes back to its 3 bytes |
| Base64.DecodeEncode | grpcproxy/auth.go:31 | Decode(Encode(b)) == Some(b) for every byte sequence |
| Base64.DecodeRejectsForeign | grpcproxy/auth.go:31-34 | a character outside the alphabet, padding and line breaks makes decoding fail |
| Api.Cast | grpcproxy/api.go:69-78 | success exactly when the union member has the wanted kind, returning the packet; otherwise the "got wrong packet type" error naming the packet's member |
| Api.IsEndErrorCases | grpcproxy/api.go:23-39 | an error is an end error exactly when it is io.EOF or a Canceled status |
| Api.RecvOn | grpcproxy/api.go:18-21 | Recv consumes one scripted result and gives io.EOF once the script is exhausted; the send side is untouched |
| Api.SendOn | grpcproxy/api.go:18-21 | Send records the packet and delivers it unless it fails; a stream with no faults never fails |
| Api.Stream.Recv | grpcproxy/api.go:19 | the method's result and new state are RecvOn of the old state |
| Api.Stream.Send | grpcproxy/api.go:20 | the method's result and new state are SendOn of the old state |
| Api.Send | grpcproxy/api.go:41-53 | the error is the stream's send error; it is logged exactly when it is not an end error |
| Api.Recv | grpcproxy/api.go:55-67 | the packet or error is the stream's; an error is logged exactly when it is not an end error |
| Api.WriteOn | grpcproxy/api.go:88-106 | an empty write sends nothing and succeeds with 0; otherwise one Payload is sent, the error is that send's error, and the count is len(p) on success and 0 on error |
| Api.StreamWriter.Write | grpcproxy/api.go:88-106 | the method's result and new stream state are WriteOn of the old state |
| Api.WriteOnNoFault | grpcproxy/api.go:88-106 | on a stream without faults a write reports its full length and delivers at most one frame |
| Api.WritesDeliverFrames | grpcproxy/api.go:88-106 | on a stream without faults, every write of a sequence reports its full length and the peer receives one Payload per non-empty write, in order |
| Api.BufferRead | grpcproxy/api.go:118 | bytes.Buffer.Read: takes min(len(p), buffered) bytes from the front; io.EOF only when the buffer is empty and p is not |
| Api.ReadOn | grpcproxy/api.go:117-146 | with buffered data (or len(p)==0) no packet is received and min(len(p), buffered) bytes come from the front of the buffer; otherwise exactly one receive: its error is returned unchanged with no data, a packet of another kind fails with castFromUnion's error, and a Payload is buffered and read, min(len(p), len(payload)) bytes, io.EOF only for an empty payload |
| Api.StreamReader.Read | grpcproxy/api.go:117-146 | the bytes copied into p, the count, the error, the buffer left and the stream are ReadOn of the old state; the rest of p is untouched |
| Api.CopyInto | grpcproxy/api.go:145 | the first |data| cells of p become data and the others are unchanged |
| Api.BytesAppend | grpcproxy/api.go:117-146 | the payload bytes of two packet lists concatenate |
| Api.FramesCarryBytes | grpcproxy/api.go:88-146 | the frames a writer sends carry exactly the concatenation of the writes |
| Api.ReadConserves | grpcproxy/api.go:117-146 | one read neither loses nor invents bytes: data read plus what is left equals what was pending |
| Api.ReadAllConserves | grpcproxy/api.go:117-146 | the same for any sequence of reads |
| Api.ReadAllDrains | grpcproxy/api.go:117-146 | enough non-empty reads return all pending bytes and then io.EOF |
| Api.PipeRoundTrip | grpcproxy/api.go:88-146 | what a writer sends, a reader on the other end returns byte for byte, followed by io.EOF |
| Api.EmptyPayloadEndsRead | grpcproxy/api.go:136-145 | an empty Payload makes Read return no bytes and io.EOF |
| Auth.DecodeCredentials | grpcproxy/auth.go:25-42 | no value gives the empty-token error; bad base64 (after trimming "Basic ") gives the decoding error; a decodable token succeeds exactly when its text holds a ':', and then the text is user + ":" + pass with no ':' in user; without ':' it gives the missing-colon error |
| Auth.Lookup | grpcproxy/auth.go:44-60 | acceptance means some account has the name, a matching hash and no expiry before now; a rejection is wrong credentials or expired |
| Auth.FirstNamed | grpcproxy/auth.go:44-47 | the index of the first account with the name; None when no account has it |
| Auth.LookupDecidedByFirstNamed | grpcproxy/auth.go:44-60 | the loop's verdict is the first matching-name account's verdict, or wrong credentials when there is none |
| Auth.IsAuthenticated | grpcproxy/auth.go:25-61 | decoding errors are returned as they are; decoded credentials get the loop's verdict (wrong credentials or expired); acceptance holds exactly when the first account with the user's name has a matching hash and has not expired |
| Auth.EmptyListRejectsAll | grpcproxy/auth.go:44-60 | with no accounts every token is rejected |
| Auth.LaterItemsIgnored | grpcproxy/auth.go:44-57 | accounts after the first one with the user's name play no part |
| Auth.LookupUniqueNames | grpcproxy/auth.go:44-60 | with unique names, acceptance holds exactly when some account has the name, a matching hash and no expiry |
| Auth.DuplicateNameShadows | grpcproxy/auth.go:44-51 | with two accounts of one name, a password matching only the second is rejected |
| Auth.DoAuth | grpcproxy/auth.go:67-78 | no metadata gives InvalidArgument "missing metadata"; otherwise the call passes exactly when the authorization values authenticate, and a failure is Unauthenticated carrying the failure's text |
| Auth.ProcessUnary | grpcproxy/auth.go:80-86 | the handler runs, and its reply is returned, exactly when doAuth passes; otherwise doAuth's error is returned |
| Auth.ProcessStream | grpcproxy/auth.go:88-94 | the same for streams |
| Auth.NoMetadataNeverHandled | grpcproxy/auth.go:67-86 | a call without metadata never reaches the handler |
| Auth.GetRequestMetadata | grpcproxy/auth.go:156-161 | exactly one key, "authorization", whose value starts with "Basic " |
| Auth.MetadataRoundTrip | grpcproxy/auth.go:156-161 | the server-side decoding of the client's metadata recovers the user and password |
| Auth.MetadataAuthenticates | grpcproxy/auth.go:25-78 | client metadata for an account with a matching, unexpired password passes doAuth |
| Auth.ParseEntry | grpcproxy/auth.go:119-143 | an entry yields an account only if the key before its first '=' has the POG_AUTH_ prefix, the value after it unmarshals to the account's fields and the expiry text parses to its expiry date |
| Auth.AcceptsWellFormed | grpcproxy/auth.go:119-145 | an entry KEY=VALUE with a POG_AUTH_ key, a value that unmarshals and an expiry that parses yields exactly that account, even when the value holds '=' |
| Auth.CollectAppend | grpcproxy/auth.go:118-146 | collecting entry by entry distributes over concatenation of the environment |
| Auth.ParseEntriesAppend | grpcproxy/auth.go:116-149 | the accounts of two parts of the environment are concatenated in order |
| Auth.OneEntry | grpcproxy/auth.go:118-146 | a one-entry environment contributes exactly that entry's account, if any |
| Auth.SkipsMalformed | grpcproxy/auth.go:131-141 | a malformed entry is skipped and the entries around it are still parsed |
| Auth.KeepsWellFormed | grpcproxy/auth.go:118-146 | a well-formed entry adds its account between the accounts of the entries before and after it |
| Auth.ParsedItemsWellFormed | grpcproxy/auth.go:137-143 | every account read has an expiry text that parses to its expiry date |
| Auth.NoPrefixedEntriesNoAccounts | grpcproxy/auth.go:127-129 | without POG_AUTH_ entries no account is configured |
| Auth.ParseAuthList | grpcproxy/auth.go:116-149 | the loop returns the accounts of the environment's entries, in order: well-formed entries kept (`Auth.KeepsWellFormed`), malformed ones skipped (`Auth.SkipsMalformed`) |
| Http.HeaderGet | grpcproxy/server/http.go:10 | the first value under the key, or "" when there is none |
| Http.WriteHeaderOn | grpcproxy/client.go:23 | for a code net/http does not panic on: once a final status is written later calls change nothing; an interim 1xx code (not 101) is sent without fixing the status; any other code becomes the status and sends the header map as it stands |
| Http.WriteBodyOn | grpcproxy/client.go:24 | a body write implies status 200 when none was written, and appends the text only when that status allows a body (not 1xx, 204 or 304) |
| Http.ResponseWriter.constructor | grpcproxy/client.go:16 | a fresh response has no header, no status and no body |
| Http.ResponseWriter.SetHeader | grpcproxy/client.go:17-21 | Header().Set stores one value under the key and changes nothing else |
| Http.ResponseWriter.WriteHeader | grpcproxy/client.go:23 | the new state is WriteHeaderOn of the old; callable only where net/http would not panic |
| Http.ResponseWriter.Write | grpcproxy/client.go:24 | the new state is WriteBodyOn of the old |
| Mux.SelectHandler | grpcproxy/server/http.go:8-16 | gRPC exactly for HTTP/2 requests whose content type starts with application/grpc; every other request goes to HTTP |
| Mux.Http1GoesToHttp | grpcproxy/server/http.go:10-14 | HTTP/1.x requests go to the HTTP handler |
| Mux.GrpcSubtypeGoesToGrpc | grpcproxy/server/http.go:10 | over HTTP/2, any content type starting with application/grpc goes to gRPC |
| Mux.GrpcProtoGoesToGrpc | grpcproxy/server/http.go:10 | application/grpc+proto over HTTP/2 goes to gRPC |
| Mux.NonGrpcContentTypeGoesToHttp | grpcproxy/server/http.go:10-14 | an HTTP/2 request whose content type does not start with application/grpc goes to HTTP |
| Mux.TextHtmlGoesToHttp | grpcproxy/server/http.go:10-14 | an HTTP/2 text/html request goes to HTTP |
| Mux.MissingContentTypeGoesToHttp | grpcproxy/server/http.go:10 | without a content type the request goes to HTTP |
| Server.AccessLoggingDisabled | grpcproxy/server.go:41 | logging is disabled exactly when DISABLE_ACCESS_LOGGING is non-empty |
| Server.LogRequest | grpcproxy/server.go:43-50 | nothing when disabled; otherwise one line starting "pog: " and ending in a newline |
| Server.LogFieldsJoined | grpcproxy/server.go:49 | the log line's fields joined by single spaces are the line's text |
| Server.LogLineJoinsFields | grpcproxy/server.go:49 | a log line is its seven fields joined by spaces, then a newline |
| Server.LogLineFieldsRecoverable | grpcproxy/server.go:48-49 | when no field contains a space, the target, user, remote address and code can be read back from the line |
| Server.StatusSlot.constructor | grpcproxy/server.go:28 | the status error starts as nil |
| Server.SendConnectResponse | grpcproxy/server.go:95-108 | sends one ConnectResponse and returns the send error, or else the captured err |
| Server.DoRun | grpcproxy/server.go:52-133 | the records, stream and tunnel flag are ServerSession's; *statusErr is set exactly on failure |
| Server.Run | grpcproxy/server.go:27-32 | the returned error is the status doRun recorded; records, stream and tunnel are ServerSession's |
| Server.OneRecordPerSession | grpcproxy/server.go:53-80 | every session receives once and logs exactly one record, for the identified user or "anonymous" |
| Server.RecvFailureSendsNothing | grpcproxy/server.go:82-86 | a failed first receive is the call's status, logged with its code; nothing is sent |
| Server.NonConnectRequestRejected | grpcproxy/server.go:88-93 | another first packet fails the call with FailedPrecondition; nothing is sent |
| Server.DialFailureReported | grpcproxy/server.go:110-118 | a dial failure sends one ConnectResponse with 503 and the dial error's text, and is the call's status |
| Server.DialSuccessAnswered | grpcproxy/server.go:121-129 | after a successful dial one error-free ConnectResponse is sent; the tunnel starts, with status OK, exactly when that send succeeds |
| Server.TunnelOnlyAfterHandshake | grpcproxy/server.go:82-130 | the tunnel starts exactly when a ConnectRequest was accepted and an error-free ConnectResponse was delivered, with no status error |
| StubServer.Run | grpcproxy/server/main.go:77-105 | the returned error and new stream state are StubSession's |
| StubServer.StubRejectsWithoutRequest | grpcproxy/server/main.go:78-86 | without a ConnectRequest first, the call fails with FailedPrecondition and sends nothing |
| StubServer.StubAnswersThenGivesUp | grpcproxy/server/main.go:91-104 | after a ConnectRequest one empty ConnectResponse is sent; the call then fails with the send error or with Unimplemented |
| Client.CheckProxyAuth | grpcproxy/client.go:27-38 | without accounts, "anonymous" with no error; without the header, the "header required" error; otherwise the delegate's verdict on the first value |
| Client.OpenProxyAnonymous | grpcproxy/client.go:28-30 | with no accounts every request passes as "anonymous" |
| Client.ErrorResponseShape | grpcproxy/client.go:16-25 | on a fresh status and a final code, httpError sends the code, the plain-text type, nosniff, the error header and, when the code allows a body, msg plus a newline, keeping other headers |
| Client.ErrorAfterStatusKeepsStatus | grpcproxy/client.go:16-25 | after a status was written, httpError changes neither the status nor the headers sent, and appends msg plus a newline only when that status allows a body |
| Client.InformationalErrorIs200 | grpcproxy/client.go:23-24 | httpError with an interim 1xx code sends it as an interim status, then the body write fixes 200 with the error headers |
| Client.SetErrorHeaders | grpcproxy/client.go:17-21 | the three error headers are set and nothing else changes |
| Client.HttpError | grpcproxy/client.go:16-25 | the new response is ErrorResponse of the old, for a code WriteHeader does not panic on |
| Client.BailOutCode | grpcproxy/client.go:59-73 | 503 exactly when some error argument has code Unavailable or Unauthenticated, otherwise 500 |
| Client.BailCodeOfError | grpcproxy/client.go:59-73 | with one error argument: 503 for Unavailable or Unauthenticated, otherwise 500 |
| Client.HttpErrorAndLog | grpcproxy/client.go:54-57 | writes the error response and returns the record with the target, user, remote address and code |
| Client.BailOut | grpcproxy/client.go:59-78 | the error response and record carry the code bailOut's loop chooses |
| Client.HandleTunneling | grpcproxy/client.go:40-147 | the response, records, stream, tunnel flag and panic flag are ClientSession's |
| Client.HandleOpened | grpcproxy/client.go:87-128 | after authentication, the response, records, stream, tunnel flag and panic flag are OpenedSession's |
| Client.HandleReply | grpcproxy/client.go:119-146 | once the reply is in, the response, records, tunnel flag and panic flag are AnsweredSession's |
| Client.OneRecordPerSession | grpcproxy/client.go:44-57 | the handler panics exactly when an authenticated, opened session receives a refusal whose code net/http rejects; then nothing is sent and no record written; every other path logs exactly one record, for the CONNECT target and the user checkProxyAuth returned |
| Client.OpenedOneRecord | grpcproxy/client.go:87-146 | after authentication: a panic exactly for a refusal with a rejected code, with no record; otherwise exactly one record |
| Client.AnsweredOneRecord | grpcproxy/client.go:119-146 | once the reply is in: a panic exactly for a refusal with a rejected code, with no record; otherwise exactly one record |
| Client.ReplyReached | grpcproxy/client.go:100-123 | authenticated, with a stream that accepts the ConnectRequest and yields a reply, the session continues with that reply |
| Client.MissingCredentialsChallenged | grpcproxy/client.go:80-85 | with accounts and no Proxy-Authorization, 407 with the Basic challenge, and the stream is untouched |
| Client.OpenFailureMapped | grpcproxy/client.go:89-93 | a failed open is 503 for Unavailable or Unauthenticated and 500 otherwise, with the "grpc connection failed" text |
| Client.ConnectRequestFirst | grpcproxy/client.go:100-111 | once authenticated with an open stream, the one packet sent is ConnectRequest for the request's host |
| Client.WrongReplyIs500 | grpcproxy/client.go:119-123 | a reply that is not a ConnectResponse gives 500 and no tunnel |
| Client.RefusalSurfaced | grpcproxy/client.go:125-128 | a server refusal with a final status code reaches the browser with exactly its status and text in the error header, and its text as the body when the status allows one |
| Client.RefusalWithoutBody | grpcproxy/client.go:125-128 | a refusal with 101, 204 or 304 reaches the browser with that status and the error header, and no body |
| Client.InvalidRefusalCodeDropsConnection | grpcproxy/client.go:125-126 | a refusal whose code is outside 100–999 makes the handler panic: no status, no body, no record, no tunnel |
| Client.InformationalRefusalIs200 | grpcproxy/client.go:125-126 | a refusal with an interim 1xx code reaches the browser as that interim status, then 200 with the error text; the record keeps the 1xx code |
| Client.TunnelOnlyAfterHijack | grpcproxy/client.go:80-146 | the tunnel starts exactly when authentication, open, send, an error-free ConnectResponse and the hijack all succeed; the browser then sees 200 |
| Client.OpenedTunnel | grpcproxy/client.go:87-146 | after authentication, the tunnel starts exactly when open, send, an error-free ConnectResponse and the hijack succeed, with status 200 |
| Client.AnsweredTunnel | grpcproxy/client.go:119-146 | once the reply is in, the tunnel starts exactly for an error-free ConnectResponse and a successful hijack, with status 200 |
| Client.HijackFailureKeeps200 | grpcproxy/client.go:135-142 | a failed hijack leaves the browser with 200 and no error header, while the record says 503 |
| Client.HandshakeTunnels | grpcproxy/client.go:100-146 | client and server together: a dialable target starts the tunnel at both ends and the browser sees 200 |
| Client.HandshakeDialFailure | grpcproxy/client.go:125-128 | client and server together: an undialable target reaches the browser as 503 with the dial error's text, and neither end tunnels |
| Client.ProxyRoute | grpcproxy/client.go:149-162 | CONNECT requests tunnel; other requests go to the metrics mux when it has a pattern for them, and are otherwise answered 501 |
| Client.ProxyHandler | grpcproxy/client.go:149-162 | tunnels as handleTunneling; leaves the response to the mux; or answers "Not implemented" with 501 |

## Left out

- handleBinaryTunneling and transfer (grpcproxy/api.go:154-182): the two concurrent copy loops, the wait group and context cancellation are concurrency. Starting the tunnel is a terminal flag in both sessions. Byte transfer is covered by the writer/reader round trip.
- The TunnelingConnections gauge and the metrics handler's responses are not modelled; `Client.ProxyHandler` only records that the metrics mux takes the request.
- bcrypt (hashPassword, doPasswordsMatch) is the `matches` parameter. The password-hashing tool in grpcproxy/genauthitem is not part of this model.
- `json.Unmarshal`, `time.Parse` with RFC 3339, `time.Now` and `os.Environ` are parameters or inputs.
- Log output is not produced: `Api.Send` and `Api.Recv` return whether they would log, and `Server.LogRequest` returns the line. The extra log lines of the reader, the parser and the stub server are not modelled.
- `stream.CloseSend` and the deferred `cancel` in handleTunneling are not modelled; they act after the session's outcome is fixed.
- `fmt.Sprintf` verbs are not interpreted: each message is built at its call site with `%v` replaced by the error's text. `%+v` of a packet union is reduced to the member's name (`Api.UnionText`). `%q` quotes the token without escaping it, and the base64 error text drops the decoder's byte offset (`Auth.FailureText`).
- `Auth.GetRequestMetadata`: a `BasicAuthCredentials` string is required to be bytes (characters below 256); Go strings are always byte strings.
- Header keys are stored in canonical form; `http.CanonicalHeaderKey` itself is not modelled.
- The response writer keeps only what the client sees: the interim and final statuses, the headers sent with the final status and the body. The headers sent with an interim status, trailers, flushing and the error a dropped body write returns are not modelled.
- `Http.WriteBodyOn` does not know the request: the body `net/http` discards for a `HEAD` request (only possible on the 501 path of `Client.ProxyHandler`) is kept.
- A panic in a handler is not raised: the session's `panicked` flag stands for it, and net/http's recovery (it logs the panic and closes the browser's connection) is not modelled further.
- `Http.WriteHeaderOn` follows net/http from Go 1.19 on, where a 1xx code other than 101 is an interim response; the repository's Go version is not part of this model.
- The client-side account list is passed to an abstract `authenticate(value, list)` returning a user and an error: checkProxyAuth's call to isAuthenticated does not match the signature in auth.go.
- `Client.HandleOpened`, `Client.HandleReply`, `Client.OpenedSession` and `Client.AnsweredSession` split handleTunneling into its stages; the source has one function.
- grpcproxy/server/main.go's `Main` and `StartAndStop` (listener setup, signal handling, graceful shutdown) are process start-up and I/O.
