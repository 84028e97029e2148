/** pkg/proxy/dev/remote.go: the remote proxy. It dispatches upgrade requests
    to the upgrade-aware handler and all others to the reverse proxy, answers
    transport errors with 502, and rewrites each upstream response in
    modifyResponse: the watch chunked header, the skip-list filter, and the
    tee of cacheable list responses into the cache. */
module Remote {
  import opened Base
  import opened Strs
  import opened Kube
  import opened Streams
  import opened Http
  import Common
  import Checker

  /** The two handlers a request can reach. */
  datatype Route = UpgradeHandler | ReverseProxy

  /** ServeHTTP: upgrade requests go only to the upgrade handler. */
  function ServeHTTP(req: Request): (r: Route)
    ensures r == UpgradeHandler <==> req.isUpgrade
    ensures r == ReverseProxy <==> !req.isUpgrade
  {
    if req.isUpgrade then UpgradeHandler else ReverseProxy
  }

  /** errorHandler: a transport error is answered with 502 Bad Gateway. */
  function ErrorHandler(err: Error): (reply: Reply)
    ensures reply.HeaderOnly? && reply.code == 502
  {
    HeaderOnly(502)
  }

  /** A response body as the wrappers installed on it leave it: the body as
      received from the transport, that body after the filter read all of it
      and failed, no body, the filter's buffer of re-encoded bytes, or a
      dualReadCloser that copies the inner body into the cache job's pipe. */
  datatype Body = Raw | Drained | NoBody | Filtered(encoded: Bytes) | Teed(inner: Body)

  /** The background caching of a response: the request, and whether the
      cache side reads the copy through a gzip reader. The cache manager that
      consumes it is outside the model. */
  datatype CacheJob = CacheJob(req: Request, gunzipped: bool)

  /** http.Response, as modifyResponse sees it. content and fault are what
      the received body yields: its bytes and the error it ends with. */
  class Response {
    const statusCode: int
    const request: Option<Request>
    const content: Bytes
    const fault: Option<Error>
    var header: Header
    var body: Body
    var contentLength: int

    constructor (statusCode: int, request: Option<Request>, header: Header,
                 content: Bytes, fault: Option<Error>, contentLength: int)
      ensures this.statusCode == statusCode && this.request == request && this.header == header
      ensures this.content == content && this.fault == fault && this.contentLength == contentLength
      ensures body == Raw
    {
      this.statusCode := statusCode;
      this.request := request;
      this.header := header;
      this.content := content;
      this.fault := fault;
      this.contentLength := contentLength;
      body := Raw;
    }
  }

  const TransferEncoding := "Transfer-Encoding"
  const ContentEncoding := "Content-Encoding"
  const SkipPrefix := "skip-"

  /** The header after the watch step: "Transfer-Encoding: chunked" is added
      for a watch whose response lacks the header. */
  function WatchHeader(h: Header, info: Option<RequestInfo>): Header {
    if info.Some? && info.value.verb == "watch" && HeaderGet(h, TransferEncoding) == "" then
      HeaderAdd(h, TransferEncoding, "chunked")
    else h
  }

  /** The response's Content-Type, or the one negotiated for the request. */
  function RespContentType(h: Header, req: Request): string {
    if |HeaderGet(h, "Content-Type")| == 0 then req.contentType else HeaderGet(h, "Content-Type")
  }

  /** CreateSerializer of remote.go: none without a content type, request
      info, API version or resource. */
  function CreateSerializer(respContentType: string, info: Option<RequestInfo>, sm: SerializerManager): (r: Option<Serializer>)
    ensures r.Some? <==> respContentType != "" && info.Some? && info.value.apiVersion != "" && info.value.resource != ""
    ensures r.Some? ==> r.value == sm(respContentType, info.value.apiGroup, info.value.apiVersion, info.value.resource)
  {
    if respContentType == "" || info.None? || info.value.apiVersion == "" || info.value.resource == "" then None
    else Some(sm(respContentType, info.value.apiGroup, info.value.apiVersion, info.value.resource))
  }

  /** Whether the response is gzip-encoded, so the filter reads it through the
      lazy gzip reader. */
  predicate Gzipped(h: Header) {
    HeaderGet(h, ContentEncoding) == "gzip"
  }

  /** All the filter reads from the body: through the gzip reader, which
      builds its decoder from the whole compressed body, when gzipped. */
  function FilterInput(h: Header, content: Bytes, fault: Option<Error>, gunzip: Bytes -> Result<Bytes>): Result<Bytes> {
    if Gzipped(h) then (if fault.Some? then Err(fault.value) else gunzip(content))
    else AllOf(content, fault)
  }

  /** The header after a filter that produced size bytes. */
  function FilteredHeader(h: Header, size: nat, gunzipped: bool): Header {
    var h1 := if size > 0 then HeaderSet(h, "Content-Length", Decimal(size)) else h;
    if gunzipped then HeaderDel(h1, ContentEncoding) else h1
  }

  /** The response is a list the cache keeps: pods or configmaps listed with
      no selector, or with the consistency label. */
  predicate Cacheable(info: RequestInfo, selector: string) {
    (Common.IsPodOrConfigMapList(info) && selector == "") || Common.CheckLabel(info, selector, Common.ConsistencyLabel)
  }

  /** A successful status: 200 to 206. */
  predicate Success(statusCode: int) {
    200 <= statusCode <= 206
  }

  /** The filter's Content-Length header holds the size in decimal, which
      reads back as that size. */
  lemma FilteredLength(h: Header, size: nat, gunzipped: bool)
    requires size > 0
    ensures var d := HeaderGet(FilteredHeader(h, size, gunzipped), "Content-Length");
      (forall i :: 0 <= i < |d| ==> '0' <= d[i] <= '9') && DecimalValue(d) == size
    ensures !gunzipped ==> HeaderGet(FilteredHeader(h, size, gunzipped), ContentEncoding) == HeaderGet(h, ContentEncoding)
    ensures gunzipped ==> HeaderGet(FilteredHeader(h, size, gunzipped), ContentEncoding) == ""
  {
    DecimalRoundTrip(size);
  }

  /** RemoteProxy: its checker, whether a cache manager is set, the serializer
      manager, and the gzip decoder (RFC 1952, outside the model). */
  class RemoteProxy {
    const checker: Checker.Checker
    const hasCacheMgr: bool
    const sm: SerializerManager
    const gunzip: Bytes -> Result<Bytes>

    constructor (checker: Checker.Checker, hasCacheMgr: bool, sm: SerializerManager, gunzip: Bytes -> Result<Bytes>)
      ensures this.checker == checker && this.hasCacheMgr == hasCacheMgr && this.sm == sm && this.gunzip == gunzip
    {
      this.checker := checker;
      this.hasCacheMgr := hasCacheMgr;
      this.sm := sm;
      this.gunzip := gunzip;
    }

    /** IsHealthy: the checker's view. */
    function IsHealthy(): (b: bool)
      reads this, checker
      ensures b == checker.clusterHealthy
    {
      checker.IsHealthy()
    }

    /** modifyResponse. A response without a request, or whose selector has
        the resource-usage label, is left alone. Otherwise a watch gets the
        chunked header, and a 2xx response is filtered (filter label), left
        uncached (filter or functional label), or teed into a cache job
        (a cacheable list, when a cache manager is set). A 2xx response with
        no request info is the nil dereference the source would panic on. */
    method ModifyResponse(resp: Response?) returns (err: Option<Error>, job: Option<CacheJob>)
      modifies resp
      ensures resp == null ==> err.None? && job.None?
      ensures resp != null && resp.request.None? ==> unchanged(resp) && err.None? && job.None?
      ensures resp != null && resp.request.Some? && Contains(resp.request.value.selector, Common.ResourceLabel) ==>
        unchanged(resp) && err.None? && job.None?
      ensures resp != null && resp.request.Some? && !Contains(resp.request.value.selector, Common.ResourceLabel) ==>
        var req := resp.request.value;
        var h0 := WatchHeader(old(resp.header), req.info);
        && (!Success(resp.statusCode) ==>
              resp.header == h0 && resp.body == old(resp.body) && resp.contentLength == old(resp.contentLength)
              && err.None? && job.None?)
        && (Success(resp.statusCode) && req.info.None? ==>
              resp.header == old(resp.header) && resp.body == old(resp.body) && resp.contentLength == old(resp.contentLength)
              && err == Some(NilRequestInfo) && job.None?)
        && (Success(resp.statusCode) && req.info.Some? && Common.CheckLabel(req.info.value, req.selector, Common.FilterLabel) ==>
              job.None? &&
              var s := CreateSerializer(RespContentType(h0, req), req.info, sm);
              && (s.None? ==>
                    resp.header == h0 && resp.body == old(resp.body) && resp.contentLength == old(resp.contentLength) && err.None?)
              && (s.Some? ==>
                    match RewriteList(req.info.value.resource, FilterInput(h0, resp.content, resp.fault, gunzip), s.value, NameLacksPrefix(SkipPrefix))
                    case Failed(e) =>
                      resp.header == h0 && resp.body == Drained && resp.contentLength == old(resp.contentLength) && err == Some(e)
                    case NotAList =>
                      resp.header == FilteredHeader(h0, 0, Gzipped(h0)) && resp.body == NoBody
                      && resp.contentLength == old(resp.contentLength) && err.None?
                    case Rewritten(bytes, _) =>
                      resp.header == FilteredHeader(h0, |bytes|, Gzipped(h0)) && resp.body == Filtered(bytes)
                      && resp.contentLength == (if |bytes| > 0 then |bytes| else old(resp.contentLength)) && err.None?))
        && (Success(resp.statusCode) && req.info.Some? && !Common.CheckLabel(req.info.value, req.selector, Common.FilterLabel) ==>
              var caches := hasCacheMgr && !Common.CheckLabel(req.info.value, req.selector, Common.FuncLabel)
                            && Cacheable(req.info.value, req.selector);
              && resp.header == h0 && resp.contentLength == old(resp.contentLength) && err.None?
              && (caches ==> resp.body == Teed(old(resp.body)) && job == Some(CacheJob(req, Gzipped(h0))))
              && (!caches ==> resp.body == old(resp.body) && job.None?))
      ensures job.Some? <==>
        && resp != null && resp.request.Some? && hasCacheMgr && Success(resp.statusCode)
        && !Contains(resp.request.value.selector, Common.ResourceLabel)
        && resp.request.value.info.Some?
        && !Common.CheckLabel(resp.request.value.info.value, resp.request.value.selector, Common.FilterLabel)
        && !Common.CheckLabel(resp.request.value.info.value, resp.request.value.selector, Common.FuncLabel)
        && Cacheable(resp.request.value.info.value, resp.request.value.selector)
    {
      if resp == null || resp.request.None? {
        return None, None;
      }
      var req := resp.request.value;
      var labelSelector := req.selector;
      if Contains(labelSelector, Common.ResourceLabel) {
        return None, None;
      }
      if req.info.Some? && req.info.value.verb == "watch" {
        if HeaderGet(resp.header, TransferEncoding) == "" {
          resp.header := HeaderAdd(resp.header, TransferEncoding, "chunked");
        }
      }
      job := None;
      if 200 <= resp.statusCode <= 206 {
        if req.info.None? {
          return Some(NilRequestInfo), None;
        }
        var info := req.info.value;
        var respContentType := HeaderGet(resp.header, "Content-Type");
        if |respContentType| == 0 {
          respContentType := req.contentType;
        }
        if Common.CheckLabel(info, labelSelector, Common.FilterLabel) {
          var needUncompressed := HeaderGet(resp.header, ContentEncoding) == "gzip";
          var s := CreateSerializer(respContentType, req.info, sm);
          if s.None? {
            return None, None;
          }
          var size: nat := 0;
          match RewriteList(info.resource, FilterInput(resp.header, resp.content, resp.fault, gunzip), s.value, NameLacksPrefix(SkipPrefix)) {
            case Failed(e) =>
              resp.body := Drained;
              return Some(e), None;
            case NotAList =>
              resp.body := NoBody;
            case Rewritten(bytes, _) =>
              resp.body := Filtered(bytes);
              size := |bytes|;
          }
          if size > 0 {
            resp.contentLength := size;
            resp.header := HeaderSet(resp.header, "Content-Length", Decimal(size));
          }
          if needUncompressed {
            resp.header := HeaderDel(resp.header, ContentEncoding);
          }
        }
        if Common.CheckLabel(info, labelSelector, Common.FilterLabel) || Common.CheckLabel(info, labelSelector, Common.FuncLabel) {
          return None, None;
        }
        if (Common.IsPodOrConfigMapList(info) && labelSelector == "") || Common.CheckLabel(info, labelSelector, Common.ConsistencyLabel) {
          if hasCacheMgr {
            job := Some(CacheJob(req, HeaderGet(resp.header, ContentEncoding) == "gzip"));
            resp.body := Teed(resp.body);
          }
        }
      }
      err := None;
    }
  }
}
