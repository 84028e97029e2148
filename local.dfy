/** pkg/proxy/dev/local.go: the responder used while the cluster is unhealthy.
    Only resource requests are served: deletes are refused with a 403 Status,
    and everything else is answered from the cache, which only serves
    consistency-labelled lists of pods and configmaps, reduced to their
    consistency items. */
module Local {
  import opened Base
  import opened Strs
  import opened Kube
  import opened Http
  import Common

  /** What the cache manager's QueryCache returns: an object or none, and an
      error or none. The cache manager itself is outside the model. */
  type CacheQuery = Request -> (Option<Object>, Option<Error>)

  /** The request description used in error messages (ReqString of the
      yurthub util package, which is outside the model). */
  type ReqFormatter = Request -> string

  const NotConsistencyLabel := Message("not list consistency label")

  /** localDelete: a 403 Failure Status naming the object. */
  function LocalDelete(info: RequestInfo): (reply: Reply)
    ensures reply.WrittenStatus? && reply.code == 403
    ensures reply.status.status == "Failure" && reply.status.code == 403 && reply.status.reason == "Forbidden"
    ensures reply.status.name == info.name && reply.status.group == info.namespace && reply.status.kind == info.resource
    ensures reply.status.message == "delete request is not supported in local cache"
  {
    WrittenStatus(403, Status("Failure", 403, "Forbidden", info.name, info.namespace, info.resource,
                              "delete request is not supported in local cache"))
  }

  /** The cached object as served: a list of the requested kind reduced to
      its items labelled "type=consistency"; anything else as it is. */
  function ConsistencyView(resource: string, obj: Option<Object>): Option<Object> {
    if obj.Some? && IsListOf(resource, obj.value) then
      Some(WithItems(obj.value, Select(obj.value.items, LabelTypeIs(Common.ConsistencyType))))
    else obj
  }

  /** The error mapping at the end of localReqCache. */
  function CacheReply(reqString: ReqFormatter, req: Request, info: RequestInfo, obj: Option<Object>, err: Option<Error>): Reply {
    if err == Some(ErrStorageNotFound) || err == Some(GVRNotRecognized) then
      WrittenError(NotFound(info.apiGroup, info.resource, info.name))
    else if err.Some? then WrittenError(InternalError(err.value))
    else if obj.None? then
      WrittenError(InternalError(Message("no cache object for " + reqString(req))))
    else WrittenObject(200, obj.value)
  }

  /** What localReqCache answers for the cache's (object, error). */
  function ReqCacheReply(reqString: ReqFormatter, req: Request, info: RequestInfo, cached: (Option<Object>, Option<Error>)): Reply {
    if !Common.CheckLabel(info, req.selector, Common.ConsistencyLabel) then WrittenError(Unclassified(NotConsistencyLabel))
    else CacheReply(reqString, req, info, ConsistencyView(info.resource, cached.0), cached.1)
  }

  /** The status of a cache reply: 404 for a missing object or an unknown
      resource type, 500 for any other error or no object, 200 otherwise. */
  lemma CacheReplyStatus(reqString: ReqFormatter, req: Request, info: RequestInfo, obj: Option<Object>, err: Option<Error>)
    ensures var r := CacheReply(reqString, req, info, obj, err);
      && (r.WrittenError? && r.error.NotFound? <==> err == Some(ErrStorageNotFound) || err == Some(GVRNotRecognized))
      && (r.WrittenError? && r.error.InternalError? <==>
            (err.Some? && err != Some(ErrStorageNotFound) && err != Some(GVRNotRecognized)) || (err.None? && obj.None?))
      && (r.WrittenObject? <==> err.None? && obj.Some?)
      && (r.WrittenObject? ==> r.code == 200 && Some(r.obj) == obj)
  {
  }

  /** A served list keeps exactly the cached list's consistency items, in
      order, with the same envelope. */
  lemma ServedListIsConsistent(reqString: ReqFormatter, req: Request, info: RequestInfo, cached: (Option<Object>, Option<Error>))
    requires ReqCacheReply(reqString, req, info, cached).WrittenObject?
    requires cached.0.Some? && IsListOf(info.resource, cached.0.value)
    ensures var served := ReqCacheReply(reqString, req, info, cached).obj;
      var original := cached.0.value;
      && IsListOf(info.resource, served) && served.envelope == original.envelope
      && served.items == Select(original.items, LabelTypeIs(Common.ConsistencyType))
      && (forall x :: x in served.items <==> x in original.items && LabelOf(x, "type") == "consistency")
  {
    forall x ensures x in Select(cached.0.value.items, LabelTypeIs(Common.ConsistencyType))
                     <==> x in cached.0.value.items && LabelOf(x, "type") == "consistency" {
      SelectMembers(cached.0.value.items, LabelTypeIs(Common.ConsistencyType), x);
    }
  }

  /** Without the consistency label the request is refused, whatever the
      cache holds. */
  lemma OnlyConsistencyListsServed(reqString: ReqFormatter, req: Request, info: RequestInfo, cached: (Option<Object>, Option<Error>))
    requires ReqCacheReply(reqString, req, info, cached).WrittenObject?
    ensures info.isResourceRequest && info.verb == "list"
    ensures info.resource == "pods" || info.resource == "configmaps"
    ensures Contains(req.selector, Common.ConsistencyLabel)
    ensures cached.1.None? && cached.0.Some?
  {
  }

  /** LocalProxy: the cache manager it queries and the request formatter
      its messages use. */
  class LocalProxy {
    const query: CacheQuery
    const reqString: ReqFormatter

    constructor (query: CacheQuery, reqString: ReqFormatter)
      ensures this.query == query && this.reqString == reqString
    {
      this.query := query;
      this.reqString := reqString;
    }

    /** localReqCache: queries the cache, checks the label, reduces a list to
        its consistency items, and maps the outcome to a reply. */
    method LocalReqCache(req: Request, info: RequestInfo) returns (reply: Reply)
      ensures reply == ReqCacheReply(reqString, req, info, query(req))
    {
      var cached := query(req);
      var obj, err := cached.0, cached.1;
      if !Common.CheckLabel(info, req.selector, Common.ConsistencyLabel) {
        return WrittenError(Unclassified(NotConsistencyLabel));
      }
      if (info.resource == "pods" || info.resource == "configmaps") && obj.Some? && IsListOf(info.resource, obj.value) {
        var items := SelectItems(obj.value.items, LabelTypeIs(Common.ConsistencyType));
        obj := Some(WithItems(obj.value, items));
      }
      if err == Some(ErrStorageNotFound) || err == Some(GVRNotRecognized) {
        return WrittenError(NotFound(info.apiGroup, info.resource, info.name));
      } else if err.Some? {
        return WrittenError(InternalError(err.value));
      } else if obj.None? {
        return WrittenError(InternalError(Message("no cache object for " + reqString(req))));
      }
      reply := WrittenObject(200, obj.value);
    }

    /** ServeHTTP: requests without request info and non-resource requests
        are bad requests; deletes get the 403 Status without a cache query;
        every other verb goes to localReqCache. queried says whether the
        cache was queried. */
    method ServeHTTP(req: Request) returns (reply: Reply, queried: bool)
      ensures req.info.None? || !req.info.value.isResourceRequest ==>
        && reply == WrittenError(BadRequest("request(" + reqString(req) + ") is not supported when cluster is unhealthy"))
        && !queried
      ensures req.info.Some? && req.info.value.isResourceRequest && req.info.value.verb in {"delete", "deletecollection"} ==>
        reply == LocalDelete(req.info.value) && !queried
      ensures req.info.Some? && req.info.value.isResourceRequest && req.info.value.verb !in {"delete", "deletecollection"} ==>
        reply == ReqCacheReply(reqString, req, req.info.value, query(req)) && queried
      ensures reply.WrittenObject? ==> queried && reply.code == 200
    {
      if req.info.Some? && req.info.value.isResourceRequest {
        var info := req.info.value;
        if info.verb == "delete" || info.verb == "deletecollection" {
          return LocalDelete(info), false;
        }
        reply := LocalReqCache(req, info);
        return reply, true;
      }
      reply := WrittenError(BadRequest("request(" + reqString(req) + ") is not supported when cluster is unhealthy"));
      queried := false;
    }
  }
}
