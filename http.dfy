/**
 * The parts of Go's net/http the proxy touches: requests, header maps with
 * canonical keys, the status codes it answers with, and a response writer that
 * follows net/http's rules (a status outside 100-999 panics, an interim 1xx status
 * leaves the final one to come, the first final WriteHeader wins, a body write
 * implies 200 and is dropped under a status that allows no body, the header map
 * is sent as it stands when the status is written).
 */
module Http {
  import opened Wrappers

  /** http.Header: canonical key to a non-empty list of values. */
  type Header = h: map<string, seq<string>> | forall k | k in h :: h[k] != [] witness map[]

  /** Header.Get: the first value under a canonical key, or "". */
  function HeaderGet(h: Header, key: string): (v: string)
    ensures key in h ==> v == h[key][0]
    ensures key !in h ==> v == ""
  {
    if key in h then h[key][0] else ""
  }

  /** A header map being built for a response; Header.Set stores one value under a canonical key. */
  type HeaderMap = map<string, seq<string>>

  datatype Request = Request(verb: string, host: string, remoteAddr: string, protoMajor: int, header: Header)

  const MethodConnect: string := "CONNECT"

  const StatusOK: int := 200
  const StatusProxyAuthRequired: int := 407
  const StatusInternalServerError: int := 500
  const StatusNotImplemented: int := 501
  const StatusServiceUnavailable: int := 503

  /**
   * What the client sees of a response so far: the header map being built, the
   * interim 1xx statuses sent, the final status and header map as sent (once a
   * status is written), and the body.
   */
  datatype Response = Response(header: HeaderMap, interim: seq<int>, status: Option<int>, sentHeader: HeaderMap, body: string)

  const FreshResponse: Response := Response(map[], [], None, map[], "")

  /** checkWriteHeaderCode: net/http accepts three-digit codes only. */
  predicate ValidStatusCode(code: int) {
    100 <= code <= 999
  }

  /** A 1xx status other than 101 Switching Protocols is sent as an interim response. */
  predicate IsInformational(code: int) {
    100 <= code <= 199 && code != 101
  }

  /** bodyAllowedForStatus: a 1xx, 204 or 304 response carries no body. */
  predicate BodyAllowed(code: int) {
    !(100 <= code <= 199) && code != 204 && code != 304
  }

  /** WriteHeader panics when no final status is written yet and the code is not a valid one. */
  predicate WriteHeaderPanics(resp: Response, code: int) {
    resp.status.None? && !ValidStatusCode(code)
  }

  /**
   * w.WriteHeader(code): once a final status is written, later calls change
   * nothing; an interim code is sent without fixing the status; any other valid
   * code becomes the status and sends the header map as it stands.
   */
  function WriteHeaderOn(resp: Response, code: int): (r: Response)
    requires !WriteHeaderPanics(resp, code)
    ensures r.header == resp.header && r.body == resp.body
    ensures resp.status.None? && !IsInformational(code) ==>
      r.status == Some(code) && r.sentHeader == resp.header && r.interim == resp.interim
    ensures resp.status.None? && IsInformational(code) ==> r == resp.(interim := resp.interim + [code])
    ensures resp.status.Some? ==> r == resp
  {
    if resp.status.Some? then resp
    else if IsInformational(code) then resp.(interim := resp.interim + [code])
    else resp.(status := Some(code), sentHeader := resp.header)
  }

  /**
   * w.Write(text): writes the status 200 first when none has been written; under
   * a status that allows no body the text is dropped (ErrBodyNotAllowed).
   */
  function WriteBodyOn(resp: Response, text: string): (r: Response)
    ensures r.header == resp.header && r.interim == resp.interim
    ensures resp.status.Some? ==> r.status == resp.status && r.sentHeader == resp.sentHeader
    ensures resp.status.None? ==> r.status == Some(StatusOK) && r.sentHeader == resp.header
    ensures r.status.Some? && r.body == if BodyAllowed(r.status.value) then resp.body + text else resp.body
  {
    var sent := WriteHeaderOn(resp, StatusOK);
    if BodyAllowed(sent.status.value) then sent.(body := resp.body + text) else sent
  }

  /** The http.ResponseWriter the handlers write to. */
  class ResponseWriter {
    var header: HeaderMap
    var interim: seq<int>
    var status: Option<int>
    var sentHeader: HeaderMap
    var body: string

    function State(): Response
      reads this
    {
      Response(header, interim, status, sentHeader, body)
    }

    constructor ()
      ensures State() == FreshResponse
    {
      header := map[];
      interim := [];
      status := None;
      sentHeader := map[];
      body := "";
    }

    /** w.Header().Set(key, value). */
    method SetHeader(key: string, value: string)
      modifies this
      ensures State() == old(State()).(header := old(header)[key := [value]])
    {
      header := header[key := [value]];
    }

    /** w.WriteHeader(code); net/http panics instead when WriteHeaderPanics holds. */
    method WriteHeader(code: int)
      requires !WriteHeaderPanics(State(), code)
      modifies this
      ensures State() == WriteHeaderOn(old(State()), code)
    {
      if status.Some? {
        return;
      }
      if IsInformational(code) {
        interim := interim + [code];
        return;
      }
      status := Some(code);
      sentHeader := header;
    }

    method Write(text: string)
      modifies this
      ensures State() == WriteBodyOn(old(State()), text)
    {
      WriteHeader(StatusOK);
      if BodyAllowed(status.value) {
        body := body + text;
      }
    }
  }
}
