/**
 * Properties of the authentication helpers over several calls: the key
 * cache and the audience cache are memos that, once filled, answer every
 * later call without a request; failures are never stored; and validation
 * fails closed.
 */
module AuthProperties {
  import opened Wrappers
  import opened Network
  import opened Metadata
  import opened IapAuth

  /** Successive calls of `certs()`, the i-th one seeing `responses[i]` if it fetches. */
  function RunCerts(cached: Option<KeySet>, responses: seq<CertResponse>): (s: Step<Option<KeySet>, seq<Result<Option<KeySet>, FetchError>>>)
    ensures |s.result| == |responses|
    decreases |responses|
  {
    if responses == [] then Step(cached, [], [])
    else
      var first := CertsCall(cached, responses[0]);
      var rest := RunCerts(first.state, responses[1..]);
      Step(rest.state, first.sent + rest.sent, [first.result] + rest.result)
  }

  /** Successive calls of `audience()`, the i-th one seeing `servers[i]` if it looks up metadata. */
  function RunAudience(cached: Option<string>, servers: seq<MetadataServer>): (s: Step<Option<string>, seq<Result<string, FetchError>>>)
    ensures |s.result| == |servers|
    decreases |servers|
  {
    if servers == [] then Step(cached, [], [])
    else
      var first := AudienceCall(cached, servers[0]);
      var rest := RunAudience(first.state, servers[1..]);
      Step(rest.state, first.sent + rest.sent, [first.result] + rest.result)
  }

  /** A key response that fills the cache: a successful fetch of a non-null body. */
  predicate Populates(r: CertResponse) {
    r.Ok? && r.value.Some?
  }

  lemma {:induction false} KeyFetchesAppend(a: seq<Request>, b: seq<Request>)
    ensures KeyFetches(a + b) == KeyFetches(a) + KeyFetches(b)
  {
    if a != [] {
      assert (a + b)[1..] == a[1..] + b;
      KeyFetchesAppend(a[1..], b);
    } else {
      assert a + b == b;
    }
  }

  /** Once CERTS holds a key set, every later call returns it and nothing is fetched. */
  lemma {:induction false} CachedCertsServeEveryCall(keys: KeySet, responses: seq<CertResponse>)
    ensures var s := RunCerts(Some(keys), responses);
      && s.state == Some(keys)
      && s.sent == []
      && forall i :: 0 <= i < |s.result| ==> s.result[i] == Ok(Some(keys))
  {
    if responses != [] {
      CachedCertsServeEveryCall(keys, responses[1..]);
    }
  }

  /**
   * Starting unset, the key set is fetched on every call up to and including
   * the first that yields a key set, and on no call after it; from then on
   * every call returns that key set.
   */
  lemma {:induction false} CertsFetchedUntilPopulated(responses: seq<CertResponse>, i: nat)
    requires i < |responses| && Populates(responses[i])
    requires forall j :: 0 <= j < i ==> !Populates(responses[j])
    ensures var s := RunCerts(None, responses);
      && s.state == responses[i].value
      && |s.sent| == KeyFetches(s.sent) == i + 1
      && forall j :: i <= j < |responses| ==> s.result[j] == Ok(responses[i].value)
  {
    var first := CertsCall(None, responses[0]);
    var rest := RunCerts(first.state, responses[1..]);
    if i == 0 {
      CachedCertsServeEveryCall(responses[0].value.value, responses[1..]);
    } else {
      assert !Populates(responses[0]);
      assert first.state == None;
      CertsFetchedUntilPopulated(responses[1..], i - 1);
      forall j | i <= j < |responses|
        ensures RunCerts(None, responses).result[j] == Ok(responses[i].value)
      {
        assert RunCerts(None, responses).result[j] == rest.result[j - 1];
      }
    }
    KeyFetchesAppend(first.sent, rest.sent);
  }

  /** While no response yields a key set, CERTS stays unset and every call fetches again. */
  lemma {:induction false} FailedFetchesAreRetried(responses: seq<CertResponse>)
    requires forall j :: 0 <= j < |responses| ==> !Populates(responses[j])
    ensures var s := RunCerts(None, responses);
      && s.state == None
      && |s.sent| == KeyFetches(s.sent) == |responses|
  {
    if responses != [] {
      var first := CertsCall(None, responses[0]);
      assert !Populates(responses[0]);
      FailedFetchesAreRetried(responses[1..]);
      KeyFetchesAppend(first.sent, RunCerts(first.state, responses[1..]).sent);
    }
  }

  /** Once AUDIENCE holds a value, every later call returns it and no metadata is looked up. */
  lemma {:induction false} CachedAudienceServesEveryCall(aud: string, servers: seq<MetadataServer>)
    ensures var s := RunAudience(Some(aud), servers);
      && s.state == Some(aud)
      && s.sent == []
      && forall i :: 0 <= i < |s.result| ==> s.result[i] == Ok(aud)
  {
    if servers != [] {
      CachedAudienceServesEveryCall(aud, servers[1..]);
    }
  }

  /**
   * An unset audience is resolved from the numeric project id, looked up
   * first, and the project id, looked up only if the first succeeded; it is
   * stored only when both returned, as `/projects/{number}/apps/{id}`.
   */
  lemma AudienceFromMetadata(server: MetadataServer)
    ensures var s := AudienceCall(None, server);
      var numberUrl := MetadataUrl(NumericProjectIdItem);
      var idUrl := MetadataUrl(ProjectIdItem);
      && s.sent == [Get(numberUrl)] + (if server(numberUrl).Ok? then [Get(idUrl)] else [])
      && (s.result.Ok? <==> server(numberUrl).Ok? && server(idUrl).Ok?)
      && (s.result.Err? ==> s.state == None)
      && (s.result.Ok? ==>
            && s.state == Some(s.result.value)
            && s.result.value == FormatAudience(server(numberUrl).value, server(idUrl).value)
            && ('/' !in server(numberUrl).value ==>
                  ParseAudience(s.result.value) == Some((server(numberUrl).value, server(idUrl).value))))
  {
  }

  /** The two metadata lookups ask for different URLs, neither of them the key endpoint. */
  lemma AudienceLookupsDistinct()
    ensures MetadataUrl(NumericProjectIdItem) != MetadataUrl(ProjectIdItem)
    ensures MetadataUrl(NumericProjectIdItem) != PublicKeyUrl
    ensures MetadataUrl(ProjectIdItem) != PublicKeyUrl
  {
  }

  /** A successful validation returns exactly the `email` and `sub` claims the decoder verified. */
  lemma ValidateSuccessFromDecodedClaims(c: Caches, assertion: string, fetched: CertResponse, server: MetadataServer, decode: Decoder)
    ensures var s := Validate(c, assertion, fetched, server, decode);
      s.result.0.Some? ==>
        && s.state.audience.Some?
        && decode(assertion, s.state.certs, s.state.audience.value).Ok?
        && var info := decode(assertion, s.state.certs, s.state.audience.value).value;
           "email" in info && "sub" in info && s.result == (Some(info["email"]), Some(info["sub"]))
  {
  }

  /** A key fetch failure on a cold cache rejects without storing anything or looking up the audience. */
  lemma ValidateRejectsOnKeyFetchFailure(c: Caches, assertion: string, e: FetchError, server: MetadataServer, decode: Decoder)
    requires c.certs.None?
    ensures var s := Validate(c, assertion, Err(e), server, decode);
      s.result == (None, None) && s.state == c && s.sent == [Get(PublicKeyUrl)]
  {
  }

  /** A failed metadata lookup on a cold audience cache rejects and leaves AUDIENCE unset. */
  lemma ValidateRejectsOnMetadataFailure(c: Caches, assertion: string, fetched: CertResponse, server: MetadataServer, decode: Decoder)
    requires c.audience.None?
    requires CertsCall(c.certs, fetched).result.Ok?
    requires server(MetadataUrl(NumericProjectIdItem)).Err? || server(MetadataUrl(ProjectIdItem)).Err?
    ensures var s := Validate(c, assertion, fetched, server, decode);
      s.result == (None, None) && s.state.audience == None
  {
  }

  /** A decode failure or a missing `email` or `sub` claim rejects. */
  lemma ValidateRejectsUndecodable(c: Caches, assertion: string, fetched: CertResponse, server: MetadataServer, decode: Decoder)
    requires CertsCall(c.certs, fetched).result.Ok?
    requires AudienceCall(c.audience, server).result.Ok?
    requires var info := decode(assertion, CertsCall(c.certs, fetched).state, AudienceCall(c.audience, server).result.value);
      info.Err? || "email" !in info.value || "sub" !in info.value
    ensures Validate(c, assertion, fetched, server, decode).result == (None, None)
  {
  }

  /** With both caches filled, validation sends no request and leaves the caches as they are. */
  lemma ValidateWithWarmCaches(c: Caches, assertion: string, fetched: CertResponse, server: MetadataServer, decode: Decoder)
    requires c.certs.Some? && c.audience.Some?
    ensures var s := Validate(c, assertion, fetched, server, decode);
      s.sent == [] && s.state == c
  {
  }

  /**
   * A decoder that honours the audience check of section 4.1.3 of RFC 7519:
   * whatever it accepts carries an `aud` claim equal to the expected audience.
   */
  ghost predicate EnforcesAudience(decode: Decoder) {
    forall token, keys, aud :: decode(token, keys, aud).Ok? ==>
      "aud" in decode(token, keys, aud).value && decode(token, keys, aud).value["aud"] == aud
  }

  /**
   * With such a decoder, an accepted assertion names the audience resolved
   * from this deployment's metadata: on a cold cache, exactly
   * `/projects/{number}/apps/{id}` from the two lookups.
   */
  lemma ValidateAcceptsOnlyThisAudience(c: Caches, assertion: string, fetched: CertResponse, server: MetadataServer, decode: Decoder)
    requires EnforcesAudience(decode)
    ensures var s := Validate(c, assertion, fetched, server, decode);
      s.result.0.Some? ==>
        && s.state.audience.Some?
        && var info := decode(assertion, s.state.certs, s.state.audience.value).value;
           "aud" in info && info["aud"] == s.state.audience.value
           && (c.audience.None? ==>
                 info["aud"] == FormatAudience(server(MetadataUrl(NumericProjectIdItem)).value,
                                               server(MetadataUrl(ProjectIdItem)).value))
  {
  }

  /** A metadata server for project number 123 and project id `proj-x`. */
  function ProjectXServer(url: string): Result<string, FetchError> {
    if url == MetadataUrl(NumericProjectIdItem) then Ok("123")
    else if url == MetadataUrl(ProjectIdItem) then Ok("proj-x")
    else Err(RequestFailed)
  }

  /**
   * First request of a process: key set {"kid-1": K1}, project number 123
   * and project id `proj-x`, and a token the decoder accepts for that
   * project's audience with email alice@example.com and sub u-42.
   * Validation returns that identity and leaves both caches filled.
   */
  lemma FirstRequestScenario(decode: Decoder)
    requires decode("tok", Some(map["kid-1" := "K1"]), FormatAudience("123", "proj-x"))
      == Ok(map["email" := "alice@example.com", "sub" := "u-42"])
    ensures var s := Validate(Caches(None, None), "tok", Ok(Some(map["kid-1" := "K1"])), ProjectXServer, decode);
      && s.result == (Some("alice@example.com"), Some("u-42"))
      && s.state == Caches(Some(map["kid-1" := "K1"]), Some(FormatAudience("123", "proj-x")))
  {
    AudienceLookupsDistinct();
    var numberUrl, idUrl := MetadataUrl(NumericProjectIdItem), MetadataUrl(ProjectIdItem);
    assert ProjectXServer(numberUrl) == Ok("123");
    assert ProjectXServer(idUrl) == Ok("proj-x");
  }

  /** The audience of that project is the literal `/projects/123/apps/proj-x`. */
  lemma ProjectXAudience()
    ensures FormatAudience("123", "proj-x") == "/projects/123/apps/proj-x"
  {
  }
}
