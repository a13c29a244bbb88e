/**
 * The stand-in servlet request and response the GeoServices REST map resources use to dispatch
 * an OWS request internally: a GET request whose parameters are a query map, and a response
 * that only records its content type and the bytes written to its output stream.
 */
module GsrFakeServlet {
  import opened Wrappers

  newtype byte = x: int | 0 <= x < 256

  /** The fixed values the fake request reports. */
  const METHOD := "GET"
  const CONTEXT_PATH := "/geoserver"
  const PATH_INFO := "/ows"
  const PATH_TRANSLATED := "/ows"
  const REQUEST_URI := "/geoserver/ows"
  const SCHEME := "http"
  const CONTENT_LENGTH := -1

  /** `FakeHttpServletRequest`: nothing but the query map it was made with. */
  datatype FakeRequest = FakeRequest(query: map<string, string>)

  /** The request URI is the context path followed by the path info. */
  lemma RequestUriIsContextPathAndPathInfo()
    ensures REQUEST_URI == CONTEXT_PATH + PATH_INFO
    ensures PATH_TRANSLATED == PATH_INFO
  {
  }

  /** `getParameter`: the query's value for the name, null when the name is not in the query. */
  function GetParameter(request: FakeRequest, name: string): (r: Option<string>)
    ensures r.Some? <==> name in request.query
    ensures r.Some? ==> r.value == request.query[name]
  {
    if name in request.query then Some(request.query[name]) else None
  }

  /** `getParameterMap`: the query with every value wrapped in a one-element array. */
  method GetParameterMap(request: FakeRequest) returns (parameters: map<string, seq<string>>)
    ensures parameters.Keys == request.query.Keys
    ensures forall name :: name in parameters ==> parameters[name] == [request.query[name]]
  {
    parameters := map[];
    var remaining := request.query.Keys;
    while remaining != {}
      invariant remaining <= request.query.Keys
      invariant parameters.Keys == request.query.Keys - remaining
      invariant forall name :: name in parameters ==> parameters[name] == [request.query[name]]
      decreases remaining
    {
      var name :| name in remaining;
      parameters := parameters[name := [request.query[name]]];
      remaining := remaining - {name};
    }
  }

  /** `getParameterNames`: always empty, whatever the query holds. */
  function GetParameterNames(request: FakeRequest): (r: seq<string>)
    ensures |r| == 0
  {
    []
  }

  /** `getParameterValues`: always an empty array, whatever the query holds. */
  function GetParameterValues(request: FakeRequest, name: string): (r: seq<string>)
    ensures |r| == 0
  {
    []
  }

  /**
   * The parameter accessors do not agree: a name the query holds has a value through
   * `getParameter` but none through `getParameterValues` or `getParameterNames`.
   */
  lemma ParameterAccessorsDisagree(request: FakeRequest, name: string)
    requires name in request.query
    ensures GetParameter(request, name).Some?
    ensures name !in GetParameterValues(request, name) + GetParameterNames(request)
  {
  }

  /** `getAttribute`, `getHeader` and the other name-keyed accessors: always null. */
  function GetAttribute(request: FakeRequest, name: string): (r: Option<string>)
    ensures r.None?
  {
    None
  }

  /** `setAttribute` and `removeAttribute` do nothing: the request is the same afterwards. */
  function SetAttribute(request: FakeRequest, name: string, value: string): (r: FakeRequest)
    ensures r.query == request.query
  {
    request
  }

  /** An attribute that was just set still reads as null, and the parameters are untouched. */
  lemma SetAttributeIsNotStored(request: FakeRequest, name: string, value: string, key: string)
    ensures GetAttribute(SetAttribute(request, name, value), name).None?
    ensures GetParameter(SetAttribute(request, name, value), key) == GetParameter(request, key)
  {
  }

  /** `ByteArrayOutputStream`: the bytes written so far. */
  class ByteBuffer {
    var bytes: seq<byte>

    constructor ()
      ensures bytes == []
    {
      bytes := [];
    }

    /** `write(int)`: the low eight bits of the value are appended. */
    method Write(value: int)
      modifies this
      ensures bytes == old(bytes) + [(value % 256) as byte]
    {
      bytes := bytes + [(value % 256) as byte];
    }
  }

  /** The low eight bits of each value, as `write(int)` keeps them. */
  function LowBytes(values: seq<int>): (r: seq<byte>)
    ensures |r| == |values|
    ensures forall k :: 0 <= k < |values| ==> r[k] as int == values[k] % 256
  {
    seq(|values|, k requires 0 <= k < |values| => (values[k] % 256) as byte)
  }

  /** `ServletOutputStreamImpl`: a servlet stream writing through to a byte buffer. */
  class ServletOutputStream {
    const target: ByteBuffer

    constructor (target: ByteBuffer)
      ensures this.target == target
    {
      this.target := target;
    }

    method Write(value: int)
      modifies target
      ensures target.bytes == old(target.bytes) + [(value % 256) as byte]
    {
      target.Write(value);
    }

    /** `OutputStream.write(byte[])`: one `write(int)` per element, in order. */
    method WriteAll(values: seq<int>)
      modifies target
      ensures target.bytes == old(target.bytes) + LowBytes(values)
    {
      var i := 0;
      while i < |values|
        invariant 0 <= i <= |values|
        invariant target.bytes == old(target.bytes) + LowBytes(values[..i])
      {
        Write(values[i]);
        assert LowBytes(values[..i + 1]) == LowBytes(values[..i]) + [(values[i] % 256) as byte];
        i := i + 1;
      }
      assert values[..i] == values;
    }
  }

  /** The error `getBodyBytes` raises when no stream was ever asked for. */
  const NOTHING_WRITTEN := "Can't get body content when nothing was written to it"

  /** The outcome of `getBodyBytes`: a copy of the body, or an `IllegalStateException`. */
  datatype Body = Bytes(bytes: seq<byte>) | IllegalState(message: string)

  /** `FakeHttpServletResponse`. */
  class FakeResponse {
    var body: ByteBuffer?
    var out: ServletOutputStream?
    var contentType: Option<string>

    /** The stream exists exactly when the body does, and writes into it. */
    predicate Valid()
      reads this
    {
      (out == null <==> body == null) && (out != null ==> out.target == body)
    }

    constructor ()
      ensures Valid() && body == null && out == null && contentType.None?
    {
      body := null;
      out := null;
      contentType := None;
    }

    /**
     * `getOutputStream`: the first call allocates an empty body and the stream over it; later
     * calls return that same stream and leave the body alone.
     */
    method GetOutputStream() returns (stream: ServletOutputStream)
      requires Valid()
      modifies this`body, this`out
      ensures Valid() && stream == out && body != null
      ensures old(out) != null ==> stream == old(out) && body == old(body)
      ensures old(out) == null ==> fresh(stream) && fresh(body) && body.bytes == []
    {
      if out == null {
        body := new ByteBuffer();
        out := new ServletOutputStream(body);
      }
      stream := out;
    }

    /** `getBodyBytes`: what was written, or an error when no stream was ever asked for. */
    method GetBodyBytes() returns (r: Body)
      requires Valid()
      ensures body == null <==> r == IllegalState(NOTHING_WRITTEN)
      ensures body != null ==> r == Bytes(body.bytes)
    {
      if body == null {
        r := IllegalState(NOTHING_WRITTEN);
      } else {
        r := Bytes(body.bytes);
      }
    }

    function GetContentType(): (r: Option<string>)
      reads this
      ensures r == contentType
    {
      contentType
    }

    method SetContentType(contentType: Option<string>)
      modifies this`contentType
      ensures GetContentType() == contentType
    {
      this.contentType := contentType;
    }

    /** `getStatus`: always 0, whatever was set. */
    function GetStatus(): (r: int)
      ensures r == 0
    {
      0
    }

    /** `containsHeader`: always false, whatever was set. */
    function ContainsHeader(name: string): (r: bool)
      ensures !r
    {
      false
    }

    /** `setStatus`, `setHeader`, `sendError` and the other setters change nothing. */
    method SetStatus(status: int)
      ensures unchanged(this)
    {
    }
  }

  /**
   * What a dispatch does with a fresh response: the bytes written through the stream, in order,
   * are the body, and asking for the stream twice does not lose them.
   */
  method WrittenBytesAreTheBody(first: seq<int>, second: seq<int>, contentType: string)
    returns (body: Body, reportedType: Option<string>)
    ensures body == Bytes(LowBytes(first) + LowBytes(second))
    ensures reportedType == Some(contentType)
  {
    var response := new FakeResponse();
    response.SetContentType(Some(contentType));
    var stream := response.GetOutputStream();
    stream.WriteAll(first);
    var again := response.GetOutputStream();
    again.WriteAll(second);
    body := response.GetBodyBytes();
    reportedType := response.GetContentType();
  }

  /** A response nobody wrote to refuses to give its body. */
  method UnwrittenBodyIsAnError() returns (body: Body, status: int)
    ensures body.IllegalState?
    ensures status == 0
  {
    var response := new FakeResponse();
    response.SetStatus(200);
    body := response.GetBodyBytes();
    status := response.GetStatus();
  }
}
