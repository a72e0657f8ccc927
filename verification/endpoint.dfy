/**
 * The two URL builders of custom.py: the resource endpoint (collection form
 * for list, singleton form for create, show and delete) and the blob storage
 * account URL. Both are plain template substitution: nothing is escaped.
 * Each builder is paired with a reader that inverts it.
 */
module Endpoint {
  import opened Wrappers
  import opened Constants
  import opened Strings

  /** The query string every endpoint ends with. */
  const ApiVersionQuery: string := "?api-version=" + DefaultApiVersion

  /** The fixed text between the resource group and the optional name. */
  const ProviderPath: string := "/providers/" + UserRpName + "/installerimage"

  /** The fixed text before the subscription id. */
  const SubscriptionsPrefix: string := BaseEndpointUrl + "subscriptions/"

  /** The fixed text between the subscription id and the resource group. */
  const GroupsInfix: string := "/resourcegroups/"

  /** The part of every endpoint up to the resource type, shared by both forms. */
  function ResourceTypeUrl(subId: string, resourceGroup: string): string
  {
    SubscriptionsPrefix + subId + GroupsInfix + resourceGroup + ProviderPath
  }

  /**
   * The text after the resource type: the query alone for the collection
   * form (no name), or `/name` and the query for the singleton form.
   */
  function Tail(name: Option<string>): string
  {
    match name
    case None => ApiVersionQuery
    case Some(n) => "/" + n + ApiVersionQuery
  }

  /** `_construct_endpoint_url(sub_id, resource_group_name, name)`. */
  function ConstructEndpointUrl(subId: string, resourceGroup: string, name: Option<string>): (url: string)
    ensures BaseEndpointUrl <= url
    ensures EndsWith(url, ApiVersionQuery)
  {
    ResourceTypeUrl(subId, resourceGroup) + Tail(name)
  }

  /**
   * The singleton URL is the collection URL with `"/" + name` inserted
   * immediately before `?api-version=`, and nothing else differs.
   */
  lemma SingletonInsertsName(subId: string, resourceGroup: string, name: string)
    ensures var coll := ConstructEndpointUrl(subId, resourceGroup, None);
            var single := ConstructEndpointUrl(subId, resourceGroup, Some(name));
            var cut := |coll| - |ApiVersionQuery|;
            && 0 <= cut
            && |single| == |coll| + 1 + |name|
            && single == coll[..cut] + "/" + name + coll[cut..]
            && coll[cut..] == ApiVersionQuery
  {
    var coll := ConstructEndpointUrl(subId, resourceGroup, None);
    var r := ResourceTypeUrl(subId, resourceGroup);
    assert coll[..|r|] == r;
    assert coll[|r|..] == ApiVersionQuery;
    ConcatAssoc(r, "/", name);
    ConcatAssoc(r, "/" + name, ApiVersionQuery);
  }

  /** The pieces an endpoint URL is built from. */
  datatype EndpointParts = EndpointParts(subId: string, resourceGroup: string, name: Option<string>)

  /** A subscription id or resource group that occupies exactly one path segment. */
  predicate IsSegment(s: string)
  {
    Lacks(s, '/')
  }

  /** What is left of `s` after the fixed text `p`, if `s` starts with it. */
  function AfterPrefix(p: string, s: string): (r: Option<string>)
    ensures r.Some? <==> p <= s
    ensures r.Some? ==> s == p + r.value
  {
    if p <= s then Some(s[|p|..]) else None
  }

  lemma AfterPrefixOfConcat(p: string, s: string)
    ensures AfterPrefix(p, p + s) == Some(s)
  {
    assert (p + s)[|p|..] == s;
  }

  /** Splits `s` before its first `/`: one path segment and the rest. */
  function SplitSegment(s: string): (r: (string, string))
    ensures IsSegment(r.0)
    ensures s == r.0 + r.1
    ensures r.1 == [] || r.1[0] == '/'
  {
    var i := IndexOf(s, '/');
    assert s == s[..i] + s[i..];
    (s[..i], s[i..])
  }

  lemma SplitSegmentOfConcat(a: string, r: string)
    requires IsSegment(a) && 0 < |r| && r[0] == '/'
    ensures SplitSegment(a + r) == (a, r)
  {
    assert a + r == a + [r[0]] + r[1..];
    IndexOfAfterPrefix(a, '/', r[1..]);
    assert (a + r)[..|a|] == a;
  }

  /** Reads the text after the provider path: the query alone, or `/name` and the query. */
  function ParseTail(tail: string): Option<Option<string>>
  {
    if tail == ApiVersionQuery then Some(None)
    else if 1 + |ApiVersionQuery| <= |tail| && tail[0] == '/' && EndsWith(tail, ApiVersionQuery) then
      Some(Some(tail[1..|tail| - |ApiVersionQuery|]))
    else None
  }

  lemma ParseTailRoundTrip(name: Option<string>)
    ensures ParseTail(Tail(name)) == Some(name)
  {
    if name.Some? {
      var tail := Tail(name);
      assert tail[0] == '/' != ApiVersionQuery[0];
      assert tail[1..|tail| - |ApiVersionQuery|] == name.value;
    }
  }

  lemma TailOfParse(tail: string)
    requires ParseTail(tail).Some?
    ensures Tail(ParseTail(tail).value) == tail
  {
    if tail != ApiVersionQuery {
      var n := tail[1..|tail| - |ApiVersionQuery|];
      assert tail == [tail[0]] + n + tail[|tail| - |ApiVersionQuery|..];
    }
  }

  /**
   * Reads an endpoint URL back into its pieces. The subscription id and the
   * resource group end at the next `/`; the name is everything between
   * `installerimage/` and the fixed query.
   */
  function ParseEndpointUrl(url: string): Option<EndpointParts>
  {
    match AfterPrefix(SubscriptionsPrefix, url)
    case None => None
    case Some(afterHead) =>
      var (subId, afterSub) := SplitSegment(afterHead);
      match AfterPrefix(GroupsInfix, afterSub)
      case None => None
      case Some(afterInfix) =>
        var (resourceGroup, afterGroup) := SplitSegment(afterInfix);
        match AfterPrefix(ProviderPath, afterGroup)
        case None => None
        case Some(tail) =>
          match ParseTail(tail)
          case None => None
          case Some(name) => Some(EndpointParts(subId, resourceGroup, name))
  }

  /** Every endpoint is the fixed pieces and the inputs, in order. */
  lemma EndpointShape(subId: string, resourceGroup: string, name: Option<string>)
    ensures ConstructEndpointUrl(subId, resourceGroup, name)
            == SubscriptionsPrefix + (subId + (GroupsInfix + (resourceGroup + (ProviderPath + Tail(name)))))
  {
    var t := Tail(name);
    ConcatAssoc(SubscriptionsPrefix, subId, GroupsInfix);
    ConcatAssoc(SubscriptionsPrefix + subId + GroupsInfix, resourceGroup, ProviderPath);
    ConcatAssoc(SubscriptionsPrefix + subId + GroupsInfix + resourceGroup, ProviderPath, t);
    ConcatAssoc(SubscriptionsPrefix + subId + GroupsInfix, resourceGroup, ProviderPath + t);
    ConcatAssoc(SubscriptionsPrefix + subId, GroupsInfix, resourceGroup + (ProviderPath + t));
    ConcatAssoc(SubscriptionsPrefix, subId, GroupsInfix + (resourceGroup + (ProviderPath + t)));
  }

  /**
   * When the subscription id and resource group are single path segments,
   * the endpoint URL determines them and the name: reading it back gives
   * exactly the inputs.
   */
  lemma ParseConstructRoundTrip(subId: string, resourceGroup: string, name: Option<string>)
    requires IsSegment(subId) && IsSegment(resourceGroup)
    ensures ParseEndpointUrl(ConstructEndpointUrl(subId, resourceGroup, name))
            == Some(EndpointParts(subId, resourceGroup, name))
  {
    EndpointShape(subId, resourceGroup, name);
    var afterGroup := ProviderPath + Tail(name);
    var afterInfix := resourceGroup + afterGroup;
    var afterSub := GroupsInfix + afterInfix;
    var afterHead := subId + afterSub;
    AfterPrefixOfConcat(SubscriptionsPrefix, afterHead);
    SplitSegmentOfConcat(subId, afterSub);
    AfterPrefixOfConcat(GroupsInfix, afterInfix);
    SplitSegmentOfConcat(resourceGroup, afterGroup);
    AfterPrefixOfConcat(ProviderPath, Tail(name));
    ParseTailRoundTrip(name);
  }

  /**
   * Conversely, every URL the reader accepts is the one the builder makes
   * from the pieces read, and those pieces are single path segments.
   */
  lemma ConstructParseRoundTrip(url: string)
    requires ParseEndpointUrl(url).Some?
    ensures var p := ParseEndpointUrl(url).value;
            && IsSegment(p.subId) && IsSegment(p.resourceGroup)
            && ConstructEndpointUrl(p.subId, p.resourceGroup, p.name) == url
  {
    var p := ParseEndpointUrl(url).value;
    var afterHead := AfterPrefix(SubscriptionsPrefix, url).value;
    var afterSub := SplitSegment(afterHead).1;
    var afterInfix := AfterPrefix(GroupsInfix, afterSub).value;
    var afterGroup := SplitSegment(afterInfix).1;
    var tail := AfterPrefix(ProviderPath, afterGroup).value;
    TailOfParse(tail);
    EndpointShape(p.subId, p.resourceGroup, p.name);
  }

  /**
   * Because nothing is escaped, a subscription id or resource group holding
   * `/resourcegroups/` can be shifted into the other one: two different
   * pairs of inputs then address the same URL.
   */
  lemma UnescapedSegmentsCollide(x: string, y: string, z: string, name: Option<string>)
    ensures x + GroupsInfix + y != x
    ensures ConstructEndpointUrl(x + GroupsInfix + y, z, name)
            == ConstructEndpointUrl(x, y + GroupsInfix + z, name)
  {
    var rest := ProviderPath + Tail(name);
    EndpointShape(x + GroupsInfix + y, z, name);
    EndpointShape(x, y + GroupsInfix + z, name);
    ConcatAssoc(x + GroupsInfix, y, GroupsInfix + (z + rest));
    ConcatAssoc(x, GroupsInfix, y + (GroupsInfix + (z + rest)));
    ConcatAssoc(y, GroupsInfix, z + rest);
    ConcatAssoc(y + GroupsInfix, z, rest);
  }

  /** The storage URL template's fixed text around the account name. */
  const StorageUrlPrefix: string := "https://"
  const StorageUrlSuffix: string := ".blob.core.windows.net/"

  /** `_generate_storage_account_url(storage_account_name)`. */
  function GenerateStorageAccountUrl(storageAccountName: string): (url: string)
    ensures StorageUrlPrefix <= url
    ensures EndsWith(url, StorageUrlSuffix)
    ensures |url| == |StorageUrlPrefix| + |storageAccountName| + |StorageUrlSuffix|
  {
    "https://" + storageAccountName + ".blob.core.windows.net/"
  }

  /** Strips the fixed prefix and suffix off a storage URL. */
  function StorageAccountName(url: string): Option<string>
  {
    if |StorageUrlPrefix| + |StorageUrlSuffix| <= |url| && StorageUrlPrefix <= url && EndsWith(url, StorageUrlSuffix)
    then Some(url[|StorageUrlPrefix|..|url| - |StorageUrlSuffix|])
    else None
  }

  /** The account name is recoverable from the storage URL, whatever it holds. */
  lemma StorageUrlRoundTrip(storageAccountName: string)
    ensures StorageAccountName(GenerateStorageAccountUrl(storageAccountName)) == Some(storageAccountName)
  {
    var url := GenerateStorageAccountUrl(storageAccountName);
    assert url[|StorageUrlPrefix|..|url| - |StorageUrlSuffix|] == storageAccountName;
  }

  /** Every URL the reader accepts is the storage URL of the name it reads. */
  lemma StorageNameRoundTrip(url: string)
    requires StorageAccountName(url).Some?
    ensures GenerateStorageAccountUrl(StorageAccountName(url).value) == url
  {
    var n := StorageAccountName(url).value;
    assert url == url[..|StorageUrlPrefix|] + n + url[|url| - |StorageUrlSuffix|..];
  }
}
