/** The upstream lookup client of upstreams.go: `do` issues the directory request and
    `UpstreamsFromHostname` turns the decoded `{"upstreams": [...]}` body into reverse-proxy
    upstreams. The HTTP exchange and the JSON decoder are oracles: the model receives what
    the transport delivered and what the body decoded to. */
module Upstreams {
  import opened Outcomes

  /** A reverse-proxy upstream; only its dial address is set. */
  datatype Upstream = Upstream(dial: string)

  datatype TransportError = TransportError(reason: string)

  datatype DecodeError = DecodeError(reason: string)

  /** An HTTP response, reduced to what decoding its body into `upstreamsResponse` gives.
      A body without an `upstreams` member decodes to the empty list. */
  datatype Response = Response(body: Result<seq<string>, DecodeError>)

  /** The pair `do` returns: a possibly nil response and a possibly nil error. */
  datatype DoReturn = DoReturn(resp: Option<Response>, err: Option<TransportError>)

  /** What `UpstreamsFromHostname` ends in: a list of upstreams, a returned error, or a
      nil-pointer dereference (a run-time panic in Go). */
  datatype Lookup =
    | Found(upstreams: seq<Upstream>)
    | Failed(error: LookupError)
    | NilDereference

  datatype LookupError = Transport(transport: TransportError) | Decode(decode: DecodeError)

  /** The dial addresses of a list of upstreams, in order; the inverse of building them. */
  function Dials(ups: seq<Upstream>): seq<string> {
    seq(|ups|, i requires 0 <= i < |ups| => ups[i].dial)
  }

  /** `do` as written: a transport failure is swallowed into a nil response with a nil
      error, so the error it returns is always nil. */
  function Do(transport: Result<Response, TransportError>): (r: DoReturn)
    ensures r.err.None?
    ensures r.resp.None? <==> transport.Err?
    ensures transport.Ok? ==> r.resp == Some(transport.value)
  {
    match transport
    case Ok(resp) => DoReturn(Some(resp), None)
    case Err(_) => DoReturn(None, None)
  }

  /** `do` as evidently intended: a transport failure is returned as the error. */
  function DoCorrected(transport: Result<Response, TransportError>): (r: DoReturn)
    ensures r.resp.Some? <==> r.err.None?
    ensures transport.Err? ==> r.err == Some(transport.error)
    ensures transport.Ok? ==> r.resp == Some(transport.value)
  {
    match transport
    case Ok(resp) => DoReturn(Some(resp), None)
    case Err(e) => DoReturn(None, Some(e))
  }

  /** The append loop: one upstream per decoded string, in the order of the list. */
  method BuildUpstreams(dials: seq<string>) returns (ups: seq<Upstream>)
    ensures |ups| == |dials|
    ensures forall i :: 0 <= i < |dials| ==> ups[i] == Upstream(dials[i])
    ensures Dials(ups) == dials
  {
    ups := [];
    for k := 0 to |dials|
      invariant |ups| == k
      invariant forall i :: 0 <= i < k ==> ups[i] == Upstream(dials[i])
    {
      ups := ups + [Upstream(dials[k])];
    }
  }

  /** The body of `UpstreamsFromHostname` after the call to `do`: a non-nil error is
      returned, a nil response is dereferenced, a decode failure is returned, and a
      decoded list is mapped to upstreams. */
  method HandleDoResult(d: DoReturn) returns (r: Lookup)
    ensures d.err.Some? ==> r == Failed(Transport(d.err.value))
    ensures d.err.None? && d.resp.None? ==> r == NilDereference
    ensures d.err.None? && d.resp.Some? && d.resp.value.body.Err? ==>
              r == Failed(Decode(d.resp.value.body.error))
    ensures d.err.None? && d.resp.Some? && d.resp.value.body.Ok? ==>
              r.Found? && Dials(r.upstreams) == d.resp.value.body.value
  {
    match d
    case DoReturn(_, Some(e)) =>
      r := Failed(Transport(e));
    case DoReturn(None, None) =>
      r := NilDereference;
    case DoReturn(Some(resp), None) =>
      match resp.body
      case Err(e) =>
        r := Failed(Decode(e));
      case Ok(dials) =>
        var ups := BuildUpstreams(dials);
        r := Found(ups);
  }

  /** `UpstreamsFromHostname` as written. A decoded list gives its upstreams, one per
      string and in order (an empty or absent list gives an empty, non-error result); a
      decode failure is returned as an error; a transport failure is never returned as
      an error but ends in a nil dereference. */
  method UpstreamsFromHostname(transport: Result<Response, TransportError>) returns (r: Lookup)
    ensures transport.Err? ==> r == NilDereference
    ensures transport.Ok? && transport.value.body.Err? ==>
              r == Failed(Decode(transport.value.body.error))
    ensures transport.Ok? && transport.value.body.Ok? ==>
              r.Found? && Dials(r.upstreams) == transport.value.body.value
    ensures !r.Failed? || !r.error.Transport?
  {
    var d := Do(transport);
    r := HandleDoResult(d);
  }

  /** `UpstreamsFromHostname` over the corrected `do`: every outcome is a result or a
      returned error, and a transport failure is the error returned. */
  method UpstreamsFromHostnameCorrected(transport: Result<Response, TransportError>) returns (r: Lookup)
    ensures r != NilDereference
    ensures transport.Err? ==> r == Failed(Transport(transport.error))
    ensures transport.Ok? && transport.value.body.Err? ==>
              r == Failed(Decode(transport.value.body.error))
    ensures transport.Ok? && transport.value.body.Ok? ==>
              r.Found? && Dials(r.upstreams) == transport.value.body.value
  {
    var d := DoCorrected(transport);
    r := HandleDoResult(d);
  }
}
