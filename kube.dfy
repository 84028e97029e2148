/** The Kubernetes shapes the core reads and rewrites: request info, list
    objects of the two supported kinds, response headers, and the serializer
    that decodes and encodes list payloads (outside the model, so it is a
    pair of function values). Also the item selection and the
    decode/select/encode pipeline that the response filter, the durable
    cache tier and the fallback responder all run. */
module Kube {
  import opened Base
  import opened Strs

  /** apirequest.RequestInfo, as derived from one request's method and path. */
  datatype RequestInfo = RequestInfo(
    isResourceRequest: bool,
    path: string,
    verb: string,
    apiGroup: string,
    apiVersion: string,
    namespace: string,
    resource: string,
    name: string)

  /** What the core looks at in a Pod or a ConfigMap: its name and its labels;
      everything else about the item is carried along unread. */
  datatype Item = Item(name: string, labels: map<string, string>, payload: string)

  /** A Go map lookup: the value under key, or "" when the key is absent. */
  function LabelOf(it: Item, key: string): string {
    if key in it.labels then it.labels[key] else ""
  }

  /** A decoded object. The two list kinds keep their envelope (kind,
      apiVersion, list metadata) apart from their items; any other decoded
      object is OtherObject. */
  datatype Object =
    | PodList(envelope: string, items: seq<Item>)
    | ConfigMapList(envelope: string, items: seq<Item>)
    | OtherObject(kind: string)

  /** The Go type assertion obj.(*v1.PodList) or obj.(*v1.ConfigMapList)
      chosen by the resource name. */
  predicate IsListOf(resource: string, obj: Object) {
    (resource == "pods" && obj.PodList?) || (resource == "configmaps" && obj.ConfigMapList?)
  }

  /** The k8s serializer for one resource: decoding and encoding are foreign. */
  datatype Serializer = Serializer(decode: Bytes -> Result<Object>, encode: Object -> Result<Bytes>)

  /** Decoding what was encoded gives the object back. */
  ghost predicate RoundTrips(s: Serializer) {
    forall obj :: s.encode(obj).Ok? ==> s.decode(s.encode(obj).value) == Ok(obj)
  }

  /** serializerManager.CreateSerializer(contentType, group, version, resource). */
  type SerializerManager = (string, string, string, string) -> Serializer

  /** http.Header with canonical keys: every key maps to its list of values. */
  type Header = map<string, seq<string>>

  /** Header.Get: the first value under key, or "". */
  function HeaderGet(h: Header, key: string): string {
    if key in h && |h[key]| > 0 then h[key][0] else ""
  }

  /** Header.Add: appends a value under key. */
  function HeaderAdd(h: Header, key: string, value: string): (r: Header)
    ensures r.Keys == h.Keys + {key}
    ensures r[key] == (if key in h then h[key] else []) + [value]
    ensures forall k :: k in h && k != key ==> r[k] == h[k]
  {
    h[key := (if key in h then h[key] else []) + [value]]
  }

  /** Header.Set: replaces the values under key with one value. */
  function HeaderSet(h: Header, key: string, value: string): (r: Header)
    ensures HeaderGet(r, key) == value
    ensures forall k :: k != key ==> (k in r <==> k in h) && (k in h ==> r[k] == h[k])
  {
    h[key := [value]]
  }

  /** Header.Del: removes key. */
  function HeaderDel(h: Header, key: string): (r: Header)
    ensures key !in r && HeaderGet(r, key) == ""
    ensures forall k :: k != key ==> (k in r <==> k in h) && (k in h ==> r[k] == h[k])
  {
    h - {key}
  }

  /** The items that keep accepts, in their original order. */
  function Select(items: seq<Item>, keep: Item -> bool): (r: seq<Item>)
    ensures |r| <= |items|
    ensures forall i :: 0 <= i < |r| ==> keep(r[i])
  {
    if |items| == 0 then []
    else (if keep(items[0]) then [items[0]] else []) + Select(items[1..], keep)
  }

  /** The complement of keep. */
  function Not(keep: Item -> bool): Item -> bool {
    (it: Item) => !keep(it)
  }

  /** Items whose label "type" is labelType. */
  function LabelTypeIs(labelType: string): Item -> bool {
    (it: Item) => LabelOf(it, "type") == labelType
  }

  /** Items whose name does not start with prefix. */
  function NameLacksPrefix(prefix: string): Item -> bool {
    (it: Item) => !HasPrefix(it.name, prefix)
  }

  /** Selecting over one more item extends the selection by that item when it is kept. */
  lemma {:induction false} SelectSnoc(items: seq<Item>, x: Item, keep: Item -> bool)
    ensures Select(items + [x], keep) == Select(items, keep) + (if keep(x) then [x] else [])
    decreases |items|
  {
    if |items| > 0 {
      assert (items + [x])[1..] == items[1..] + [x];
      SelectSnoc(items[1..], x, keep);
    }
  }

  /** An item is selected exactly when it is one of the items and keep accepts it. */
  lemma {:induction false} SelectMembers(items: seq<Item>, keep: Item -> bool, x: Item)
    ensures x in Select(items, keep) <==> x in items && keep(x)
    decreases |items|
  {
    if |items| > 0 {
      SelectMembers(items[1..], keep, x);
      assert items == [items[0]] + items[1..];
    }
  }

  /** Retained plus removed is the original count. */
  lemma {:induction false} SelectPartition(items: seq<Item>, keep: Item -> bool)
    ensures |Select(items, keep)| + |Select(items, Not(keep))| == |items|
    decreases |items|
  {
    if |items| > 0 {
      SelectPartition(items[1..], keep);
    }
  }

  /** Selecting twice with the same test changes nothing. */
  lemma {:induction false} SelectIdempotent(items: seq<Item>, keep: Item -> bool)
    ensures Select(Select(items, keep), keep) == Select(items, keep)
    decreases |items|
  {
    if |items| > 0 {
      SelectIdempotent(items[1..], keep);
      var rest := Select(items[1..], keep);
      if keep(items[0]) {
        assert ([items[0]] + rest)[0] == items[0];
        assert ([items[0]] + rest)[1..] == rest;
      } else {
        assert [] + rest == rest;
      }
    }
  }

  /** The selection loop the list rewriters run: it appends every accepted
      item to a fresh slice, in order. */
  method SelectItems(items: seq<Item>, keep: Item -> bool) returns (kept: seq<Item>)
    ensures kept == Select(items, keep)
  {
    kept := [];
    var i := 0;
    while i < |items|
      invariant 0 <= i <= |items|
      invariant kept == Select(items[..i], keep)
    {
      SelectSnoc(items[..i], items[i], keep);
      assert items[..i + 1] == items[..i] + [items[i]];
      if keep(items[i]) {
        kept := kept + [items[i]];
      }
      i := i + 1;
    }
    assert items[..i] == items;
  }

  /** The list with its items replaced. */
  function WithItems(obj: Object, items: seq<Item>): (r: Object)
    requires !obj.OtherObject?
    ensures !r.OtherObject? && r.items == items && r.envelope == obj.envelope
    ensures r.PodList? == obj.PodList? && r.ConfigMapList? == obj.ConfigMapList?
  {
    obj.(items := items)
  }

  /** The outcome of rewriting a list payload: the new bytes and the list they
      encode; no rewrite because the decoded object is not the expected list;
      or an error from reading, decoding or encoding. */
  datatype Rewrite = Rewritten(bytes: Bytes, list: Object) | NotAList | Failed(error: Error)

  /** Read the body, decode it, keep the items accepted by keep, encode the list. */
  function RewriteList(resource: string, body: Result<Bytes>, s: Serializer, keep: Item -> bool): Rewrite
  {
    match body
    case Err(e) => Failed(e)
    case Ok(data) =>
      match s.decode(data)
      case Err(e) => Failed(e)
      case Ok(obj) =>
        if !IsListOf(resource, obj) then NotAList
        else
          var list := WithItems(obj, Select(obj.items, keep));
          match s.encode(list)
          case Err(e) => Failed(e)
          case Ok(b) => Rewritten(b, list)
  }

  /** A rewritten payload is the encoding of the decoded list with exactly the
      accepted items, in order, and the same envelope; with a serializer that
      round-trips, decoding it gives that list back. */
  lemma RewriteKeepsExactly(resource: string, body: Result<Bytes>, s: Serializer, keep: Item -> bool)
    requires RewriteList(resource, body, s, keep).Rewritten?
    ensures var r := RewriteList(resource, body, s, keep);
      && body.Ok? && s.decode(body.value).Ok?
      && var obj := s.decode(body.value).value;
      && IsListOf(resource, obj) && IsListOf(resource, r.list)
      && r.list.envelope == obj.envelope
      && r.list.items == Select(obj.items, keep)
      && s.encode(r.list) == Ok(r.bytes)
      && (RoundTrips(s) ==> s.decode(r.bytes) == Ok(r.list))
      && (forall x :: x in r.list.items <==> x in obj.items && keep(x))
  {
    var r := RewriteList(resource, body, s, keep);
    var obj := s.decode(body.value).value;
    forall x ensures x in r.list.items <==> x in obj.items && keep(x) {
      SelectMembers(obj.items, keep, x);
    }
  }
}
