/** pkg/proxy/dev/filter.go: the response filter of the filter class, which
    drops the list items whose name starts with a prefix and serves the
    re-encoded list from a buffer. */
module Filter {
  import opened Base
  import opened Strs
  import opened Kube
  import opened Streams

  /** skipListFilterReadCloser: reads come from the re-encoded bytes; Close
      closes the original upstream body. */
  class SkipListFilterReadCloser {
    /** The bytes.Buffer: what is left to read. */
    var data: Bytes
    const rc: Source
    /** The re-encoded list, and what reads have returned of it so far. */
    ghost const encoded: Bytes
    ghost var yielded: Bytes

    /** The reads so far and what is left make up the re-encoded list. */
    ghost predicate Valid()
      reads this
    {
      yielded + data == encoded
    }

    constructor (encoded: Bytes, rc: Source)
      ensures Valid() && this.encoded == encoded && yielded == [] && data == encoded && this.rc == rc
    {
      data := encoded;
      this.rc := rc;
      this.encoded := encoded;
      yielded := [];
    }

    /** Read drains the buffer; an empty buffer reports io.EOF. */
    method Read(n: nat) returns (got: Bytes, err: Option<Error>)
      requires Valid()
      modifies this`data, this`yielded
      ensures Valid() && yielded == old(yielded) + got
      ensures (got, data, err.Some?) == Take(old(data), n)
      ensures err.Some? ==> err.value == EOF
    {
      var t := Take(data, n);
      got, data := t.0, t.1;
      err := if t.2 then Some(EOF) else None;
      yielded := yielded + got;
    }

    /** Close closes the upstream body, not the buffer. */
    method Close() returns (err: Option<Error>)
      modifies rc`closed
      ensures rc.closed && err == rc.closeFault
    {
      err := rc.Close();
    }
  }

  /** NewFilterReadCloser: for pods and configmaps, read and decode the body,
      keep the items whose name lacks prefix, re-encode, and return the new
      length with a reader over the new bytes. A decoded object that is not
      the expected list gives no reader and no error. */
  method NewFilterReadCloser(rc: Source, resource: string, prefix: string, s: Serializer)
    returns (size: nat, frc: SkipListFilterReadCloser?, err: Option<Error>)
    modifies rc`rest
    ensures resource != "pods" && resource != "configmaps" ==>
      size == 0 && frc == null && err == Some(ErrResourceType(resource)) && rc.rest == old(rc.rest)
    ensures resource == "pods" || resource == "configmaps" ==>
      && rc.rest == []
      && match RewriteList(resource, AllOf(old(rc.rest), rc.fault), s, NameLacksPrefix(prefix))
         case Rewritten(bytes, _) =>
           && size == |bytes| && frc != null && fresh(frc) && err.None?
           && frc.rc == rc && frc.encoded == bytes && frc.data == bytes && frc.yielded == [] && frc.Valid()
         case NotAList => size == 0 && frc == null && err.None?
         case Failed(e) => size == 0 && frc == null && err == Some(e)
  {
    if resource != "pods" && resource != "configmaps" {
      return 0, null, Some(ErrResourceType(resource));
    }
    var data := rc.ReadAll();
    if data.Err? {
      return 0, null, Some(data.error);
    }
    var obj := s.decode(data.value);
    if obj.Err? {
      return 0, null, Some(obj.error);
    }
    if !IsListOf(resource, obj.value) {
      return 0, null, None;
    }
    var items := SelectItems(obj.value.items, NameLacksPrefix(prefix));
    var list := WithItems(obj.value, items);
    var marshalBytes := s.encode(list);
    if marshalBytes.Err? {
      return 0, null, Some(marshalBytes.error);
    }
    frc := new SkipListFilterReadCloser(marshalBytes.value, rc);
    return |marshalBytes.value|, frc, None;
  }

  /** The filtered list keeps exactly the items whose name lacks the prefix,
      in order; the kept and the dropped items add up to the original list. */
  lemma FilterKeepsUnprefixed(resource: string, body: Result<Bytes>, s: Serializer, prefix: string)
    requires RewriteList(resource, body, s, NameLacksPrefix(prefix)).Rewritten?
    ensures var r := RewriteList(resource, body, s, NameLacksPrefix(prefix));
      var original := s.decode(body.value).value.items;
      && (forall x :: x in r.list.items <==> x in original && !HasPrefix(x.name, prefix))
      && |r.list.items| + |Select(original, Not(NameLacksPrefix(prefix)))| == |original|
  {
    var r := RewriteList(resource, body, s, NameLacksPrefix(prefix));
    RewriteKeepsExactly(resource, body, s, NameLacksPrefix(prefix));
    SelectPartition(s.decode(body.value).value.items, NameLacksPrefix(prefix));
  }
}
