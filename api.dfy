/**
 * The tunnel's wire layer (grpcproxy/api.go): the packets that travel over the
 * bidirectional gRPC stream, the Send/Recv wrappers that log only unexpected
 * failures, the typed cast out of the packet union, and the io.Writer/io.Reader
 * adapters that turn a byte stream into Payload packets and back.
 */
module Api {
  import opened Wrappers
  import opened Strings
  import opened Status

  /** An HTTP status the server hands back to the client when it cannot dial. */
  datatype HTTPError = HTTPError(statusCode: int, error: string)

  /** pb.Packet: a one-of union, possibly with no member set. */
  datatype Packet =
    | Unset
    | ConnectRequest(hostPort: string)
    | ConnectResponse(httpError: Option<HTTPError>)
    | Payload(payload: seq<byte>)

  /** The member types castFromUnion is instantiated with. */
  datatype Kind = ConnectRequestKind | ConnectResponseKind | PayloadKind

  function KindOf(p: Packet): Option<Kind> {
    match p
    case Unset => None
    case ConnectRequest(_) => Some(ConnectRequestKind)
    case ConnectResponse(_) => Some(ConnectResponseKind)
    case Payload(_) => Some(PayloadKind)
  }

  /** How the union prints under %+v, reduced to the member's name. */
  function UnionText(p: Packet): string {
    match p
    case Unset => "<nil>"
    case ConnectRequest(_) => "&{ConnectRequest}"
    case ConnectResponse(_) => "&{ConnectResponse}"
    case Payload(_) => "&{Payload}"
  }

  /** The error castFromUnion returns for a packet of another kind. */
  function WrongPacket(p: Packet): Error {
    Plain("got wrong packet type: " + UnionText(p))
  }

  /** castFromUnion[T]: the packet itself when its member is of the wanted kind. */
  function Cast(p: Packet, want: Kind): (r: Result<Packet, Error>)
    ensures r.Success? <==> KindOf(p) == Some(want)
    ensures r.Success? ==> r.value == p
    ensures r.Failure? ==> r.error == WrongPacket(p) && HasPrefix(Message(r.error), "got wrong packet type: ")
  {
    if KindOf(p) == Some(want) then Success(p) else Failure(WrongPacket(p))
  }

  /** An error that only says the stream is over: a gRPC Canceled status or io.EOF. */
  predicate IsEndError(e: Error) {
    CodeOf(e) == Canceled || e == EOF
  }

  lemma IsEndErrorCases(e: Error)
    ensures IsEndError(e) <==> e.EOF? || (e.StatusError? && e.code == Canceled)
  {
  }

  /** Send and Recv write a log line for every failure that is not an end of stream. */
  predicate LogsFailure(err: Option<Error>) {
    err.Some? && !IsEndError(err.value)
  }

  // ---------------------------------------------------------------------------
  // The stream. The peer's side is a script: the results Recv will return in
  // turn (io.EOF once it is exhausted) and the errors Send will meet in turn
  // (success once it is exhausted). `sent` records every packet handed to Send,
  // `delivered` the ones that reached the peer.

  datatype Received = Got(packet: Packet) | Failed(err: Error)

  datatype StreamState = StreamState(
    incoming: seq<Received>,
    sendFaults: seq<Option<Error>>,
    sent: seq<Packet>,
    delivered: seq<Packet>)

  /** One stream.Recv(): the next scripted result, consumed. */
  function RecvOn(st: StreamState): (r: (Received, StreamState))
    ensures st.incoming == [] ==> r == (Failed(EOF), st)
    ensures st.incoming != [] ==> [r.0] + r.1.incoming == st.incoming
    ensures r.1.sendFaults == st.sendFaults && r.1.sent == st.sent && r.1.delivered == st.delivered
  {
    if st.incoming == [] then (Failed(EOF), st)
    else (st.incoming[0], st.(incoming := st.incoming[1..]))
  }

  /** One stream.Send(p): the packet is recorded, and delivered unless the next scripted fault is an error. */
  function SendOn(st: StreamState, p: Packet): (r: (Option<Error>, StreamState))
    ensures r.1.incoming == st.incoming && r.1.sent == st.sent + [p]
    ensures r.0.None? ==> r.1.delivered == st.delivered + [p]
    ensures r.0.Some? ==> r.1.delivered == st.delivered
    ensures st.sendFaults == [] ==> r.0.None? && r.1.sendFaults == []
  {
    if st.sendFaults == [] then (None, st.(sent := st.sent + [p], delivered := st.delivered + [p]))
    else
      var fault := st.sendFaults[0];
      (fault, st.(sendFaults := st.sendFaults[1..], sent := st.sent + [p],
                  delivered := if fault.None? then st.delivered + [p] else st.delivered))
  }

  /** The Stream interface: one end of a bidirectional gRPC stream. */
  class Stream {
    var incoming: seq<Received>
    var sendFaults: seq<Option<Error>>
    var sent: seq<Packet>
    var delivered: seq<Packet>

    function State(): StreamState
      reads this
    {
      StreamState(incoming, sendFaults, sent, delivered)
    }

    constructor (incoming: seq<Received>, sendFaults: seq<Option<Error>>)
      ensures State() == StreamState(incoming, sendFaults, [], [])
    {
      this.incoming := incoming;
      this.sendFaults := sendFaults;
      this.sent := [];
      this.delivered := [];
    }

    method Recv() returns (r: Received)
      modifies this
      ensures (r, State()) == RecvOn(old(State()))
    {
      if incoming == [] {
        r := Failed(EOF);
      } else {
        r := incoming[0];
        incoming := incoming[1..];
      }
    }

    method Send(p: Packet) returns (err: Option<Error>)
      modifies this
      ensures (err, State()) == SendOn(old(State()), p)
    {
      if sendFaults == [] {
        err := None;
      } else {
        err := sendFaults[0];
        sendFaults := sendFaults[1..];
      }
      sent := sent + [p];
      if err.None? {
        delivered := delivered + [p];
      }
    }
  }

  /** Send(stream, packet): stream.Send, logging a failure unless it is an end error. */
  method Send(stream: Stream, packet: Packet) returns (err: Option<Error>, logged: bool)
    modifies stream
    ensures (err, stream.State()) == SendOn(old(stream.State()), packet)
    ensures logged == LogsFailure(err)
  {
    err := stream.Send(packet);
    logged := err.Some? && !IsEndError(err.value);
  }

  /** Recv(stream): stream.Recv, logging a failure unless it is an end error. */
  method Recv(stream: Stream) returns (r: Received, logged: bool)
    modifies stream
    ensures (r, stream.State()) == RecvOn(old(stream.State()))
    ensures logged == (r.Failed? && !IsEndError(r.err))
  {
    r := stream.Recv();
    logged := r.Failed? && !IsEndError(r.err);
  }

  // ---------------------------------------------------------------------------
  // The writer.

  datatype WriteResult = WriteResult(n: nat, err: Option<Error>)

  /** streamWriter.Write(p): empty writes send nothing; others send one Payload packet. */
  function WriteOn(st: StreamState, p: seq<byte>): (r: (WriteResult, StreamState))
    ensures |p| == 0 ==> r == (WriteResult(0, None), st)
    ensures |p| > 0 ==> r.1.sent == st.sent + [Payload(p)]
    ensures |p| > 0 ==> (r.0.err, r.1) == SendOn(st, Payload(p))
    ensures r.0.err.None? <==> r.0.n == |p|
    ensures r.0.err.Some? ==> r.0.n == 0
  {
    if |p| == 0 then (WriteResult(0, None), st)
    else
      var (err, st') := SendOn(st, Payload(p));
      if err.Some? then (WriteResult(0, err), st') else (WriteResult(|p|, None), st')
  }

  class StreamWriter {
    const s: Stream

    constructor (s: Stream)
      ensures this.s == s
    {
      this.s := s;
    }

    method Write(p: seq<byte>) returns (n: nat, err: Option<Error>)
      modifies s
      ensures (WriteResult(n, err), s.State()) == WriteOn(old(s.State()), p)
    {
      if |p| == 0 {
        return 0, None;
      }
      var logged;
      err, logged := Send(s, Payload(p));
      if err.Some? {
        return 0, err;
      }
      n := |p|;
    }
  }

  // ---------------------------------------------------------------------------
  // The reader.

  datatype BufferReadResult = BufferReadResult(data: seq<byte>, eof: bool, rest: seq<byte>)

  /** bytes.Buffer.Read(p) with len(p) == want: io.EOF only from an empty buffer and a non-empty p. */
  function BufferRead(buf: seq<byte>, want: nat): (r: BufferReadResult)
    ensures r.eof <==> |buf| == 0 && want > 0
    ensures r.data + r.rest == buf
    ensures |r.data| == if want < |buf| then want else |buf|
  {
    if |buf| == 0 then BufferReadResult([], want > 0, [])
    else if want < |buf| then BufferReadResult(buf[..want], false, buf[want..])
    else BufferReadResult(buf, false, [])
  }

  datatype ReadStep = ReadStep(data: seq<byte>, err: Option<Error>, buf: seq<byte>, st: StreamState)

  /**
   * streamReader.Read(p) with len(p) == want: served from the buffer when that
   * yields no error; otherwise one packet is received, cast to a Payload, put in
   * the buffer and read from it.
   */
  function ReadOn(buf: seq<byte>, st: StreamState, want: nat): (r: ReadStep)
    ensures |r.data| <= want
    ensures r.err.Some? ==> r.data == []
    ensures |buf| > 0 || want == 0 ==> r.st == st && r.err.None? && r.data + r.buf == buf
    ensures |buf| > 0 ==> |r.data| == if want < |buf| then want else |buf|
    ensures |buf| == 0 && want > 0 ==> r.st == RecvOn(st).1
    ensures |buf| == 0 && want > 0 && RecvOn(st).0.Failed? ==> r.err == Some(RecvOn(st).0.err) && r.buf == []
    ensures |buf| == 0 && want > 0 && RecvOn(st).0.Got? && !RecvOn(st).0.packet.Payload? ==>
      r.err == Some(WrongPacket(RecvOn(st).0.packet)) && r.buf == []
    ensures |buf| == 0 && want > 0 && RecvOn(st).0.Got? && RecvOn(st).0.packet.Payload? ==>
      var payload := RecvOn(st).0.packet.payload;
      r.data + r.buf == payload && |r.data| == (if want < |payload| then want else |payload|) &&
      (r.err.Some? <==> payload == []) && (r.err.Some? ==> r.err == Some(EOF))
  {
    var first := BufferRead(buf, want);
    if !first.eof then ReadStep(first.data, None, first.rest, st)
    else
      var (rcv, st') := RecvOn(st);
      if rcv.Failed? then ReadStep([], Some(rcv.err), [], st')
      else
        match Cast(rcv.packet, PayloadKind)
        case Failure(e) => ReadStep([], Some(e), [], st')
        case Success(p) =>
          var second := BufferRead(p.payload, want);
          ReadStep(second.data, if second.eof then Some(EOF) else None, second.rest, st')
  }

  class StreamReader {
    const s: Stream
    var buf: seq<byte>

    constructor (s: Stream)
      ensures this.s == s && buf == []
    {
      this.s := s;
      buf := [];
    }

    method Read(p: array<byte>) returns (n: nat, err: Option<Error>)
      modifies this, s, p
      ensures var r := ReadOn(old(buf), old(s.State()), p.Length);
        n == |r.data| && p[..n] == r.data && p[n..] == old(p[n..]) &&
        err == r.err && buf == r.buf && s.State() == r.st
    {
      var first := BufferRead(buf, p.Length);
      if !first.eof {
        CopyInto(p, first.data);
        buf := first.rest;
        return |first.data|, None;
      }
      buf := [];
      var rcv, logged := Recv(s);
      if rcv.Failed? {
        return 0, Some(rcv.err);
      }
      var cast := Cast(rcv.packet, PayloadKind);
      if cast.Failure? {
        return 0, Some(cast.error);
      }
      var second := BufferRead(rcv.packet.payload, p.Length);
      CopyInto(p, second.data);
      buf := second.rest;
      n := |second.data|;
      err := if second.eof then Some(EOF) else None;
    }
  }

  /** copy(p, data) where data fits. */
  method CopyInto(p: array<byte>, data: seq<byte>)
    requires |data| <= p.Length
    modifies p
    ensures p[..|data|] == data && p[|data|..] == old(p[|data|..])
  {
    forall i | 0 <= i < |data| {
      p[i] := data[i];
    }
  }

  // ---------------------------------------------------------------------------
  // What the writer puts on the wire and what the reader gets back.

  /** The packets a run of writes delivers: one Payload per non-empty write. */
  function Frames(ws: seq<seq<byte>>): seq<Packet> {
    if ws == [] then []
    else (if |ws[0]| == 0 then [] else [Payload(ws[0])]) + Frames(ws[1..])
  }

  function Concat(ws: seq<seq<byte>>): seq<byte> {
    if ws == [] then [] else ws[0] + Concat(ws[1..])
  }

  /** Applies streamWriter.Write to each chunk in turn. */
  function WriteAllOn(st: StreamState, ws: seq<seq<byte>>): (seq<WriteResult>, StreamState)
    decreases |ws|
  {
    if ws == [] then ([], st)
    else
      var (r, st') := WriteOn(st, ws[0]);
      var (rs, st'') := WriteAllOn(st', ws[1..]);
      ([r] + rs, st'')
  }

  /** On a stream that never fails, every write reports its full length and the peer receives exactly Frames(ws). */
  lemma {:induction false} WritesDeliverFrames(st: StreamState, ws: seq<seq<byte>>)
    requires st.sendFaults == []
    ensures var (rs, st') := WriteAllOn(st, ws);
      |rs| == |ws| &&
      (forall i | 0 <= i < |ws| :: rs[i] == WriteResult(|ws[i]|, None)) &&
      st'.delivered == st.delivered + Frames(ws) && st'.incoming == st.incoming
    decreases |ws|
  {
    if ws != [] {
      var (r, st1) := WriteOn(st, ws[0]);
      WriteOnNoFault(st, ws[0]);
      WritesDeliverFrames(st1, ws[1..]);
      var (rs, st2) := WriteAllOn(st1, ws[1..]);
      assert WriteAllOn(st, ws) == ([r] + rs, st2);
      assert Frames(ws) == (if |ws[0]| == 0 then [] else [Payload(ws[0])]) + Frames(ws[1..]);
      assert st2.delivered == st.delivered + Frames(ws);
      forall i | 0 <= i < |ws|
        ensures ([r] + rs)[i] == WriteResult(|ws[i]|, None)
      {
        if i > 0 {
          assert ([r] + rs)[i] == rs[i - 1];
        }
      }
    }
  }

  /** One write on a stream that never fails: the full length is reported and at most one frame is delivered. */
  lemma WriteOnNoFault(st: StreamState, p: seq<byte>)
    requires st.sendFaults == []
    ensures var (r, st') := WriteOn(st, p);
      r == WriteResult(|p|, None) && st'.sendFaults == [] && st'.incoming == st.incoming &&
      st'.delivered == st.delivered + (if |p| == 0 then [] else [Payload(p)])
  {
  }

  /** The incoming side of a stream whose peer delivered `ps`, with nothing failing. */
  function Incoming(ps: seq<Packet>): (rs: seq<Received>)
    ensures |rs| == |ps| && forall i | 0 <= i < |ps| :: rs[i] == Got(ps[i])
  {
    if ps == [] then [] else [Got(ps[0])] + Incoming(ps[1..])
  }

  /** Every result still to come is a non-empty Payload packet. */
  predicate AllPayloads(rs: seq<Received>) {
    forall i | 0 <= i < |rs| :: rs[i].Got? && rs[i].packet.Payload? && |rs[i].packet.payload| > 0
  }

  /** The bytes still carried by such results, in order. */
  function Bytes(rs: seq<Received>): seq<byte>
    requires AllPayloads(rs)
  {
    if rs == [] then [] else rs[0].packet.payload + Bytes(rs[1..])
  }

  /** Every byte the reader has yet to return: its buffer, then the packets to come. */
  function Pending(buf: seq<byte>, st: StreamState): seq<byte>
    requires AllPayloads(st.incoming)
  {
    buf + Bytes(st.incoming)
  }

  lemma {:induction false} BytesAppend(a: seq<Received>, b: seq<Received>)
    requires AllPayloads(a) && AllPayloads(b)
    ensures AllPayloads(a + b) && Bytes(a + b) == Bytes(a) + Bytes(b)
  {
    if a == [] {
      assert a + b == b;
    } else {
      BytesAppend(a[1..], b);
      assert (a + b)[1..] == a[1..] + b;
      assert (a + b)[0] == a[0];
    }
  }

  /** The frames of a run of writes carry its bytes, in order, none of them empty. */
  lemma {:induction false} FramesCarryBytes(ws: seq<seq<byte>>)
    ensures AllPayloads(Incoming(Frames(ws))) && Bytes(Incoming(Frames(ws))) == Concat(ws)
  {
    if ws != [] {
      FramesCarryBytes(ws[1..]);
      var head := if |ws[0]| == 0 then [] else [Payload(ws[0])];
      assert Frames(ws) == head + Frames(ws[1..]);
      assert Incoming(Frames(ws)) == Incoming(head) + Incoming(Frames(ws[1..]));
      BytesAppend(Incoming(head), Incoming(Frames(ws[1..])));
      if |ws[0]| > 0 {
        assert Bytes(Incoming(head)) == ws[0] + Bytes(Incoming(head)[1..]);
        assert Incoming(head)[1..] == [];
      }
    }
  }

  /**
   * One Read loses, duplicates and reorders nothing: what it returns followed by
   * what is still pending is what was pending. It returns something whenever
   * something is pending and p is not empty, and fails only with io.EOF once
   * nothing is pending.
   */
  lemma ReadConserves(buf: seq<byte>, st: StreamState, want: nat)
    requires AllPayloads(st.incoming)
    ensures var r := ReadOn(buf, st, want);
      AllPayloads(r.st.incoming) &&
      r.data + Pending(r.buf, r.st) == Pending(buf, st) &&
      (r.err.Some? ==> r.err == Some(EOF) && Pending(buf, st) == []) &&
      (want > 0 && Pending(buf, st) != [] ==> r.err.None? && |r.data| > 0)
  {
    var r := ReadOn(buf, st, want);
    if |buf| == 0 && want > 0 && st.incoming != [] {
      var head := st.incoming[0];
      assert st.incoming == [head] + st.incoming[1..];
      BytesAppend([head], st.incoming[1..]);
      assert Bytes([head]) == head.packet.payload + Bytes([head][1..]);
      assert [head][1..] == [];
    }
  }

  /** A run of Reads with the given lengths, stopping at the first error. */
  function ReadAll(buf: seq<byte>, st: StreamState, wants: seq<nat>): (seq<byte>, Option<Error>, seq<byte>, StreamState)
    decreases |wants|
  {
    if wants == [] then ([], None, buf, st)
    else
      var r := ReadOn(buf, st, wants[0]);
      if r.err.Some? then (r.data, r.err, r.buf, r.st)
      else
        var (out, err, buf', st') := ReadAll(r.buf, r.st, wants[1..]);
        (r.data + out, err, buf', st')
  }

  /** Over a run of Reads, the bytes returned and the bytes still pending make up what was pending. */
  lemma {:induction false} ReadAllConserves(buf: seq<byte>, st: StreamState, wants: seq<nat>)
    requires AllPayloads(st.incoming)
    ensures var (out, err, buf', st') := ReadAll(buf, st, wants);
      AllPayloads(st'.incoming) && out + Pending(buf', st') == Pending(buf, st) &&
      (err.Some? ==> err == Some(EOF) && out == Pending(buf, st))
    decreases |wants|
  {
    if wants != [] {
      var r := ReadOn(buf, st, wants[0]);
      ReadConserves(buf, st, wants[0]);
      if r.err.Some? {
        assert ReadAll(buf, st, wants) == (r.data, r.err, r.buf, r.st);
      } else {
        ReadAllConserves(r.buf, r.st, wants[1..]);
        var (out, err, buf', st') := ReadAll(r.buf, r.st, wants[1..]);
        assert ReadAll(buf, st, wants) == (r.data + out, err, buf', st');
        assert r.data + out + Pending(buf', st') == r.data + (out + Pending(buf', st'));
      }
    }
  }

  /** Enough non-empty Reads drain everything pending and then meet io.EOF. */
  lemma {:induction false} ReadAllDrains(buf: seq<byte>, st: StreamState, wants: seq<nat>)
    requires AllPayloads(st.incoming)
    requires forall i | 0 <= i < |wants| :: wants[i] > 0
    requires |wants| > |Pending(buf, st)|
    ensures var (out, err, _, _) := ReadAll(buf, st, wants);
      out == Pending(buf, st) && err == Some(EOF)
    decreases |wants|
  {
    var r := ReadOn(buf, st, wants[0]);
    ReadConserves(buf, st, wants[0]);
    ReadAllConserves(buf, st, wants);
    if r.err.None? {
      assert |Pending(r.buf, r.st)| < |Pending(buf, st)|;
      ReadAllDrains(r.buf, r.st, wants[1..]);
    }
  }

  /**
   * The tunnel's byte pipe: what a writer puts through a stream that never fails
   * is what a reader at the other end gets back, in order and complete, followed
   * by io.EOF once the writer's side is done.
   */
  lemma PipeRoundTrip(ws: seq<seq<byte>>, wants: seq<nat>)
    requires forall i | 0 <= i < |wants| :: wants[i] > 0
    requires |wants| > |Concat(ws)|
    ensures var (_, writerSide) := WriteAllOn(StreamState([], [], [], []), ws);
      var readerSide := StreamState(Incoming(writerSide.delivered), [], [], []);
      var (out, err, _, _) := ReadAll([], readerSide, wants);
      out == Concat(ws) && err == Some(EOF)
  {
    var (_, writerSide) := WriteAllOn(StreamState([], [], [], []), ws);
    WritesDeliverFrames(StreamState([], [], [], []), ws);
    assert writerSide.delivered == Frames(ws);
    FramesCarryBytes(ws);
    var readerSide := StreamState(Incoming(writerSide.delivered), [], [], []);
    assert Pending([], readerSide) == Concat(ws);
    ReadAllDrains([], readerSide, wants);
  }

  /**
   * An empty Payload packet is not skipped: the Read that receives it returns
   * no bytes and io.EOF although the stream may carry more.
   */
  lemma EmptyPayloadEndsRead(st: StreamState, want: nat)
    requires want > 0 && st.incoming != [] && st.incoming[0] == Got(Payload([]))
    ensures ReadOn([], st, want).err == Some(EOF) && ReadOn([], st, want).data == []
  {
  }
}
