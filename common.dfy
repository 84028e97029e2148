/** pkg/proxy/dev/common.go: the label-selector tokens that name each policy
    class, and checkLabel, which decides whether a request belongs to one.
    remote.go declares an identical checkLabel; this is the one definition. */
module Common {
  import opened Strs
  import opened Kube

  const FuncLabel := "type=functional"
  const FilterLabel := "type=filter"
  const ConsistencyLabel := "type=consistency"
  const ResourceLabel := "type=resourceusage"
  const ConsistencyType := "consistency"
  const ResourceType := "resourceusage"

  /** The protobuf content type the serializer is created for. */
  const RespContentType := "application/vnd.kubernetes.protobuf"

  /** CreateSerializer: the protobuf serializer for the request's group,
      version and resource. */
  function CreateSerializer(info: RequestInfo, sm: SerializerManager): Serializer {
    sm(RespContentType, info.apiGroup, info.apiVersion, info.resource)
  }

  /** A list of pods or configmaps. */
  predicate IsPodOrConfigMapList(info: RequestInfo) {
    info.isResourceRequest && info.verb == "list" && (info.resource == "pods" || info.resource == "configmaps")
  }

  /** checkLabel: a resource list of pods or configmaps whose selector contains token. */
  function CheckLabel(info: RequestInfo, selector: string, token: string): (b: bool)
    ensures b <==> && info.isResourceRequest
                   && info.verb == "list"
                   && info.resource in {"pods", "configmaps"}
                   && Contains(selector, token)
  {
    IsPodOrConfigMapList(info) && Contains(selector, token)
  }

  /** Any verb other than "list" is outside every class, whatever the selector. */
  lemma CheckLabelNeedsList(info: RequestInfo, selector: string, token: string)
    requires info.verb != "list"
    ensures !CheckLabel(info, selector, token)
  {
  }

  /** Any resource other than pods and configmaps is outside every class. */
  lemma CheckLabelNeedsPodsOrConfigMaps(info: RequestInfo, selector: string, token: string)
    requires info.resource != "pods" && info.resource != "configmaps"
    ensures !CheckLabel(info, selector, token)
  {
  }

  /** The four label tokens. */
  function Tokens(): seq<string> {
    [FuncLabel, FilterLabel, ConsistencyLabel, ResourceLabel]
  }

  /** If t occurs in s at i, the characters line up. */
  lemma CharOfOccurrence(s: string, t: string, i: int, k: int)
    ensures OccursAt(s, t, i) && 0 <= k < |t| ==> s[i + k] == t[k]
  {
    if OccursAt(s, t, i) && 0 <= k < |t| {
      assert s[i..i + |t|][k] == s[i + k];
    }
  }

  /** Two tokens that both start "type=" and differ at index d < |t|, where
      "ty" never occurs in s past index 0, do not contain one another. */
  lemma {:induction false} NotInside(s: string, t: string, d: nat)
    requires |t| >= 2 && t[0] == 't' && t[1] == 'y'
    requires d < |t| && d < |s| && s[d] != t[d]
    requires forall j :: 0 < j < |s| - 1 ==> !(s[j] == 't' && s[j + 1] == 'y')
    ensures !Contains(s, t)
  {
    ContainsAt(s, t);
    forall i | OccursAt(s, t, i) ensures false {
      CharOfOccurrence(s, t, i, 0);
      CharOfOccurrence(s, t, i, 1);
      CharOfOccurrence(s, t, i, d);
    }
  }

  /** No token occurs inside another, so a selector made of one token
      selects only that token's class. */
  lemma {:induction false} TokensApart(i: nat, j: nat)
    requires i < 4 && j < 4 && i != j
    ensures Tokens()[i] != Tokens()[j] && !Contains(Tokens()[i], Tokens()[j])
  {
    var s, t := Tokens()[i], Tokens()[j];
    var d := if (i == 0 && j == 1) || (i == 1 && j == 0) then 6 else 5;
    assert s[d] != t[d];
    NotInside(s, t, d);
  }

  /** A selector that is exactly one class's token does not select another class. */
  lemma TokenSelectsOnlyItsClass(info: RequestInfo, i: nat, j: nat)
    requires i < 4 && j < 4 && i != j
    ensures !CheckLabel(info, Tokens()[i], Tokens()[j])
  {
    TokensApart(i, j);
  }
}
