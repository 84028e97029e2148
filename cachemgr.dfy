/** pkg/proxy/dev/cachemgr.go: the two cache tiers. The in-memory tier keeps
    response bodies verbatim; the durable tier keeps a pod or configmap list
    reduced to the items of one policy class, in the disk store. */
module CacheMgr {
  import opened Base
  import opened Strs
  import opened Kube
  import opened Streams
  import opened Storage
  import Util
  import Common

  /** KeyFunc: "bench" joined with the resource, namespace and label type. */
  function KeyFunc(resource: string, ns: string, labelType: string): (key: string)
    ensures resource != "" ==> key == Util.KeyFunc("bench", resource, ns, labelType).value
  {
    JoinPath(["bench", resource, ns, labelType])
  }

  /** The key splits back into its parts, so distinct triples with a resource
      and a label type get distinct keys. */
  lemma KeyFuncSplits(resource: string, ns: string, labelType: string)
    requires resource != "" && labelType != ""
    requires PathElement(resource) && PathElement(ns) && PathElement(labelType)
    ensures Util.SplitKey(KeyFunc(resource, ns, labelType)) == ("bench", resource, ns, labelType)
  {
    Util.SplitKeyOfKeyFunc("bench", resource, ns, labelType);
  }

  lemma KeyFuncInjective(r1: string, ns1: string, l1: string, r2: string, ns2: string, l2: string)
    requires r1 != "" && l1 != "" && PathElement(r1) && PathElement(ns1) && PathElement(l1)
    requires r2 != "" && l2 != "" && PathElement(r2) && PathElement(ns2) && PathElement(l2)
    requires KeyFunc(r1, ns1, l1) == KeyFunc(r2, ns2, l2)
    ensures r1 == r2 && ns1 == ns2 && l1 == l2
  {
    KeyFuncSplits(r1, ns1, l1);
    KeyFuncSplits(r2, ns2, l2);
  }

  /** Without a label type, a namespace takes the label type's place. */
  lemma {:induction false} KeyFuncCollidesWithoutLabelType(resource: string, x: string)
    requires resource != "" && x != ""
    ensures KeyFunc(resource, x, "") == KeyFunc(resource, "", x)
  {
    var a := Util.NonEmptyOfFour("bench", resource, x, "");
    var b := Util.NonEmptyOfFour("bench", resource, "", x);
    assert a == b;
    assert KeyFunc(resource, x, "") == Join(a, '/');
    assert KeyFunc(resource, "", x) == Join(b, '/');
  }

  /** The durable entry a response becomes: the list reduced to the items
      whose "type" label is labelType, written with Create. */
  function DurableWrite(pending: set<string>, fs: Fs, info: RequestInfo, body: Result<Bytes>,
                        sm: SerializerManager, labelType: string): Result<Fs>
  {
    if info.resource != "pods" && info.resource != "configmaps" then Err(ErrResourceType(info.resource))
    else
      match RewriteList(info.resource, body, Common.CreateSerializer(info, sm), LabelTypeIs(labelType))
      case Failed(e) => Err(e)
      case NotAList => Ok(fs)
      case Rewritten(bytes, _) => CreateOp(pending, fs, KeyFunc(info.resource, info.namespace, labelType), bytes)
  }

  /** What the durable tier answers for a key after a response was cached: the
      encoded list with exactly the items of that class, in order, which
      decodes back to that list when the serializer round-trips. */
  lemma {:induction false} CachedListReadsBack(pending: set<string>, fs: Fs, info: RequestInfo,
                                               body: Result<Bytes>, sm: SerializerManager, labelType: string)
    requires RewriteList(info.resource, body, Common.CreateSerializer(info, sm), LabelTypeIs(labelType)).Rewritten?
    requires |RewriteList(info.resource, body, Common.CreateSerializer(info, sm), LabelTypeIs(labelType)).bytes| > 0
    requires DurableWrite(pending, fs, info, body, sm, labelType).Ok?
    ensures var s := Common.CreateSerializer(info, sm);
      var r := RewriteList(info.resource, body, s, LabelTypeIs(labelType));
      var got := GetOp(pending, DurableWrite(pending, fs, info, body, sm, labelType).value,
                       KeyFunc(info.resource, info.namespace, labelType));
      && got == Ok(r.bytes)
      && r.list.items == Select(s.decode(body.value).value.items, LabelTypeIs(labelType))
      && (forall x :: x in r.list.items <==> x in s.decode(body.value).value.items && LabelOf(x, "type") == labelType)
      && (RoundTrips(s) ==> s.decode(got.value) == Ok(r.list))
  {
    var s := Common.CreateSerializer(info, sm);
    var r := RewriteList(info.resource, body, s, LabelTypeIs(labelType));
    RewriteKeepsExactly(info.resource, body, s, LabelTypeIs(labelType));
    CreateThenGet(pending, fs, KeyFunc(info.resource, info.namespace, labelType), r.bytes);
  }

  /** CacheMgr: the disk store, the in-memory tier and the serializer manager. */
  class CacheMgr {
    const storage: DiskStorage
    var memdata: map<string, Bytes>
    const sm: SerializerManager

    /** NewCacheMgr: an empty in-memory tier. */
    constructor (storage: DiskStorage, sm: SerializerManager)
      ensures this.storage == storage && this.sm == sm && memdata == map[]
    {
      this.storage := storage;
      this.sm := sm;
      memdata := map[];
    }

    /** QueryCacheMem: the bytes under the key of the triple, and whether
        there are any; a Go map read of a missing key gives nil. */
    function QueryCacheMem(resource: string, ns: string, labelType: string): (r: (Bytes, bool))
      reads this
      ensures r.1 <==> KeyFunc(resource, ns, labelType) in memdata
      ensures r.1 ==> r.0 == memdata[KeyFunc(resource, ns, labelType)]
      ensures !r.1 ==> r.0 == []
    {
      var key := KeyFunc(resource, ns, labelType);
      if key in memdata then (memdata[key], true) else ([], false)
    }

    /** CacheResponseMem: the whole body under the key of the triple,
        replacing any earlier entry; a failed read changes nothing. */
    method CacheResponseMem(info: RequestInfo, prc: Source, labelType: string) returns (err: Option<Error>)
      modifies this`memdata, prc`rest
      ensures prc.rest == []
      ensures prc.fault.Some? ==> err == prc.fault && memdata == old(memdata)
      ensures prc.fault.None? ==>
        && err.None?
        && memdata == old(memdata)[KeyFunc(info.resource, info.namespace, labelType) := old(prc.rest)]
        && QueryCacheMem(info.resource, info.namespace, labelType) == (old(prc.rest), true)
    {
      var key := KeyFunc(info.resource, info.namespace, labelType);
      var data := prc.ReadAll();
      if data.Err? {
        return Some(data.error);
      }
      memdata := memdata[key := data.value];
      err := None;
    }

    /** CacheResponse: for pods and configmaps, the list reduced to the items
        whose "type" label is labelType goes to the durable store. Any other
        resource is refused without reading; a decoded object that is not the
        expected list is dropped with no error. */
    method CacheResponse(info: RequestInfo, prc: Source, labelType: string) returns (err: Option<Error>)
      requires storage.Valid()
      modifies prc`rest, storage
      ensures storage.Valid() && storage.pending == old(storage.pending)
      ensures info.resource != "pods" && info.resource != "configmaps" ==> prc.rest == old(prc.rest)
      ensures info.resource == "pods" || info.resource == "configmaps" ==> prc.rest == []
      ensures var w := DurableWrite(old(storage.pending), old(storage.fs), info, AllOf(old(prc.rest), prc.fault), sm, labelType);
        && (w.Err? ==> err == Some(w.error) && storage.fs == old(storage.fs))
        && (w.Ok? ==> err.None? && storage.fs == w.value)
    {
      if info.resource != "pods" && info.resource != "configmaps" {
        return Some(ErrResourceType(info.resource));
      }
      var data := prc.ReadAll();
      if data.Err? {
        return Some(data.error);
      }
      var serializer := Common.CreateSerializer(info, sm);
      var obj := serializer.decode(data.value);
      if obj.Err? {
        return Some(obj.error);
      }
      if !IsListOf(info.resource, obj.value) {
        return None;
      }
      var items := SelectItems(obj.value.items, LabelTypeIs(labelType));
      var list := WithItems(obj.value, items);
      var marshalBytes := serializer.encode(list);
      if marshalBytes.Err? {
        return Some(marshalBytes.error);
      }
      var key := KeyFunc(info.resource, info.namespace, labelType);
      err := storage.Create(key, marshalBytes.value);
    }

    /** QueryCache: the durable store's Get for the key of the triple. */
    method QueryCache(info: RequestInfo, labelType: string) returns (r: Result<Bytes>)
      requires storage.Valid()
      modifies storage`pending
      ensures storage.Valid() && storage.pending == old(storage.pending)
      ensures r == GetOp(storage.pending, storage.fs, KeyFunc(info.resource, info.namespace, labelType))
    {
      r := storage.Get(KeyFunc(info.resource, info.namespace, labelType));
    }
  }
}
