/** The request demultiplexer that `grpcHandlerFunc` installs in front of the
    gRPC server when gRPC and plain HTTPS share one listener. */
module Router {
  import opened Strings

  /** Which handler serves a request. */
  datatype Destination = GrpcServer | Fallback

  /** The content-type marker of gRPC requests. */
  const GrpcContentType: string := "application/grpc"

  /** A request goes to the gRPC server exactly when it arrived over HTTP/2 and
      its Content-Type header (empty when absent) contains the gRPC marker
      anywhere; every other request goes to the fallback handler. */
  function Route(protoMajor: int, contentType: string): (d: Destination)
    ensures d == GrpcServer <==>
              protoMajor == 2 && exists i :: OccursAt(contentType, GrpcContentType, i)
    ensures d == Fallback <==>
              protoMajor != 2 || forall i :: !OccursAt(contentType, GrpcContentType, i)
  {
    if protoMajor == 2 && Contains(contentType, GrpcContentType) then GrpcServer else Fallback
  }

  /** The marker is matched as a substring, not as a prefix: parameters
      after it, or anything before it, still route to gRPC over HTTP/2. */
  lemma MarkerAnywhereRoutesToGrpc(before: string, after: string)
    ensures Route(2, before + GrpcContentType + after) == GrpcServer
  {
    ContainsInfix(before, GrpcContentType, after);
  }

  /** The marker alone, and the marker with a codec suffix ("+proto"), route
      to gRPC over HTTP/2. */
  lemma GrpcContentTypesRouteToGrpc()
    ensures Route(2, GrpcContentType) == GrpcServer
    ensures Route(2, GrpcContentType + "+proto") == GrpcServer
  {
    MarkerAnywhereRoutesToGrpc("", "+proto");
    assert [] + GrpcContentType + "+proto" == GrpcContentType + "+proto";
    MarkerAnywhereRoutesToGrpc("", "");
    assert [] + GrpcContentType + [] == GrpcContentType;
  }

  /** A gRPC content type over HTTP/1.x still goes to the fallback handler. */
  lemma HttpOneNeverRoutesToGrpc(protoMajor: int, contentType: string)
    requires protoMajor != 2
    ensures Route(protoMajor, contentType) == Fallback
  {
  }

  /** HTTP/2 requests with no Content-Type, or one too short to hold the
      marker, go to the fallback handler. */
  lemma ShortContentTypeFallsBack(contentType: string)
    requires |contentType| < |GrpcContentType|
    ensures Route(2, contentType) == Fallback
  {
    ShorterDoesNotContain(contentType, GrpcContentType);
  }

  /** A JSON request over HTTP/2, as long as the marker but differing from it,
      goes to the fallback handler. */
  lemma JsonFallsBack()
    ensures Route(2, "application/json") == Fallback
  {
    var ct := "application/json";
    forall i ensures !OccursAt(ct, GrpcContentType, i) {
      if i == 0 {
        assert ct[0..16][12] != GrpcContentType[12];
      }
    }
  }
}
