/**
 * Project metadata lookups and the audience string built from them
 * (`get_metadata` and the formatting step of `audience` in app.py).
 */
module Metadata {
  import opened Wrappers
  import opened Network

  /** Host of the instance-local metadata server. */
  const Endpoint: string := "http://metadata.google.internal"
  /** Directory of project-level metadata items on that server. */
  const ProjectPath: string := "/computeMetadata/v1/project/"
  /** Everything of a metadata URL that precedes the item name. */
  const MetadataBase: string := Endpoint + ProjectPath

  const NumericProjectIdItem: string := "numeric-project-id"
  const ProjectIdItem: string := "project-id"

  /** The metadata server: what a GET of a URL (sent with `Metadata-Flavor: Google`) returns as text. */
  type MetadataServer = string -> Result<string, FetchError>

  /** Inverse of MetadataUrl: the item a metadata URL asks for, if it is one. */
  function MetadataItem(url: string): (item: Option<string>)
    ensures item.Some? ==> |item.value| <= |url|
  {
    if |MetadataBase| <= |url| && url[..|MetadataBase|] == MetadataBase
    then Some(url[|MetadataBase|..])
    else None
  }

  /** The URL requested for one project metadata item. */
  function MetadataUrl(item: string): (url: string)
    ensures MetadataItem(url) == Some(item)
  {
    var url := MetadataBase + item;
    assert url[..|MetadataBase|] == MetadataBase;
    url
  }

  /** A URL names a metadata item exactly when it is the URL built for that item. */
  lemma MetadataItemOnlyFromUrl(url: string, item: string)
    ensures MetadataItem(url) == Some(item) <==> url == MetadataUrl(item)
  {
  }

  /** Distinct items are fetched from distinct URLs, and none of them is the key endpoint. */
  lemma MetadataUrlsDistinct(a: string, b: string)
    ensures a != b ==> MetadataUrl(a) != MetadataUrl(b)
    ensures MetadataUrl(a) != PublicKeyUrl
  {
  }

  /**
   * Builds the URL for `item` the way `get_metadata` does (endpoint, then the
   * project path extended by the item) and asks the server for it.
   */
  method GetMetadata(item: string, server: MetadataServer) returns (url: string, value: Result<string, FetchError>)
    ensures MetadataItem(url) == Some(item)
    ensures url == MetadataUrl(item)
    ensures value == server(url)
  {
    var endpoint := Endpoint;
    var path := ProjectPath;
    path := path + item;
    url := endpoint + path;
    assert url == MetadataBase + item;
    value := server(url);
  }

  const ProjectsPrefix: string := "/projects/"
  const AppsInfix: string := "/apps/"

  /** Length of the longest prefix of `s` free of '/'. */
  function SlashFreePrefix(s: string): (k: nat)
    ensures k <= |s|
    ensures forall i :: 0 <= i < k ==> s[i] != '/'
    ensures k < |s| ==> s[k] == '/'
  {
    if s == [] || s[0] == '/' then 0 else 1 + SlashFreePrefix(s[1..])
  }

  /** The audience value `/projects/{number}/apps/{id}` expected in the assertion. */
  function FormatAudience(projectNumber: string, projectId: string): (aud: string)
    ensures '/' !in projectNumber ==> ParseAudience(aud) == Some((projectNumber, projectId))
  {
    var aud := ProjectsPrefix + projectNumber + AppsInfix + projectId;
    if '/' in projectNumber then aud
    else AudienceRoundTrip(projectNumber, projectId, aud); aud
  }

  lemma AudienceRoundTrip(projectNumber: string, projectId: string, aud: string)
    requires '/' !in projectNumber
    requires aud == ProjectsPrefix + projectNumber + AppsInfix + projectId
    ensures ParseAudience(aud) == Some((projectNumber, projectId))
  {
    assert aud[..|ProjectsPrefix|] == ProjectsPrefix;
    var rest := aud[|ProjectsPrefix|..];
    assert rest == projectNumber + AppsInfix + projectId;
    var k := SlashFreePrefix(rest);
    assert rest[|projectNumber|] == '/';
    assert k == |projectNumber|;
    assert rest[..k] == projectNumber;
    assert rest[k..] == AppsInfix + projectId;
    assert rest[k..][..|AppsInfix|] == AppsInfix;
    assert rest[k..][|AppsInfix|..] == projectId;
  }

  /** Splits an audience value back into its project number and project id. */
  function ParseAudience(aud: string): (parts: Option<(string, string)>)
    ensures parts.Some? ==> '/' !in parts.value.0
  {
    if |ProjectsPrefix| <= |aud| && aud[..|ProjectsPrefix|] == ProjectsPrefix then
      var rest := aud[|ProjectsPrefix|..];
      var k := SlashFreePrefix(rest);
      var tail := rest[k..];
      if |AppsInfix| <= |tail| && tail[..|AppsInfix|] == AppsInfix
      then Some((rest[..k], tail[|AppsInfix|..]))
      else None
    else None
  }

  /** Every string ParseAudience accepts is the audience built from the parts it returns. */
  lemma ParseAudienceSound(aud: string, projectNumber: string, projectId: string)
    requires ParseAudience(aud) == Some((projectNumber, projectId))
    ensures aud == FormatAudience(projectNumber, projectId)
  {
  }

  /** Two deployments share an audience only if their project number and id agree. */
  lemma FormatAudienceInjective(n1: string, id1: string, n2: string, id2: string)
    requires '/' !in n1 && '/' !in n2
    requires FormatAudience(n1, id1) == FormatAudience(n2, id2)
    ensures n1 == n2 && id1 == id2
  {
  }
}
