/**
 * The server's listener routing (grpcproxy/server/http.go): one port serves both
 * gRPC and plain HTTP, and each request goes to exactly one of the two handlers.
 */
module Mux {
  import opened Strings
  import opened Http

  datatype Handler = GrpcHandler | HttpHandler

  const GrpcContentType: string := "application/grpc"

  /**
   * newHTTPandGRPCMux: HTTP/2 requests whose content type starts with
   * application/grpc go to gRPC, all others to HTTP. Header.Get canonicalises
   * "content-type" to "Content-Type".
   */
  function SelectHandler(r: Request): (h: Handler)
    ensures h == GrpcHandler <==> r.protoMajor == 2 && HasPrefix(HeaderGet(r.header, "Content-Type"), GrpcContentType)
    ensures h == GrpcHandler ==> "Content-Type" in r.header
  {
    if r.protoMajor == 2 && HasPrefix(HeaderGet(r.header, "Content-Type"), GrpcContentType) then GrpcHandler
    else HttpHandler
  }

  /** An HTTP/1.x request is served by the HTTP handler, whatever its content type. */
  lemma Http1GoesToHttp(r: Request)
    requires r.protoMajor == 1
    ensures SelectHandler(r) == HttpHandler
  {
  }

  /** Matching is by prefix: gRPC sub-types such as application/grpc+proto over HTTP/2 go to gRPC. */
  lemma GrpcSubtypeGoesToGrpc(r: Request, subtype: string)
    requires r.protoMajor == 2 && "Content-Type" in r.header
    requires r.header["Content-Type"][0] == GrpcContentType + subtype
    ensures SelectHandler(r) == GrpcHandler
  {
    assert (GrpcContentType + subtype)[..|GrpcContentType|] == GrpcContentType;
  }

  lemma GrpcProtoGoesToGrpc(verb: string, host: string, remoteAddr: string)
    ensures SelectHandler(Request(verb, host, remoteAddr, 2, map["Content-Type" := ["application/grpc+proto"]])) == GrpcHandler
  {
    GrpcSubtypeGoesToGrpc(Request(verb, host, remoteAddr, 2, map["Content-Type" := ["application/grpc+proto"]]), "+proto");
  }

  /**
   * An HTTP/2 request whose content type is not a gRPC one, such as a browser's
   * request for the metrics page, is HTTP.
   */
  lemma NonGrpcContentTypeGoesToHttp(r: Request)
    requires r.protoMajor == 2 && "Content-Type" in r.header
    requires !HasPrefix(r.header["Content-Type"][0], GrpcContentType)
    ensures SelectHandler(r) == HttpHandler
  {
  }

  lemma TextHtmlGoesToHttp(verb: string, host: string, remoteAddr: string)
    ensures SelectHandler(Request(verb, host, remoteAddr, 2, map["Content-Type" := ["text/html"]])) == HttpHandler
  {
    var r := Request(verb, host, remoteAddr, 2, map["Content-Type" := ["text/html"]]);
    NonGrpcContentTypeGoesToHttp(r);
  }

  /** Without a content type the request is HTTP, even over HTTP/2. */
  lemma MissingContentTypeGoesToHttp(r: Request)
    requires "Content-Type" !in r.header
    ensures SelectHandler(r) == HttpHandler
  {
  }
}
