/**
 * Authentication of requests behind the identity-aware proxy: the
 * process-wide caches `CERTS` and `AUDIENCE` of app.py, the functions
 * `certs()` and `audience()` that fill them lazily, and
 * `validate_assertion`, which decodes the signed assertion against both.
 *
 * Each operation is given twice: a function over the cache contents that
 * says what one call does (new cache, requests sent, result), and a method
 * of AuthCaches that performs the call on the cache fields and is proved to
 * agree with that function.
 */
module IapAuth {
  import opened Wrappers
  import opened Network
  import opened Metadata

  /** The published verification keys: key id to public key text. */
  type KeySet = map<string, string>

  /** The claims of a decoded assertion. */
  type Claims = map<string, string>

  /**
   * What fetching `PublicKeyUrl` and decoding its JSON body yields when the
   * fetch is performed: the parsed body (None for a JSON `null` body) or the
   * error raised.
   */
  type CertResponse = Result<Option<KeySet>, FetchError>

  /**
   * The JWT library's decode with algorithm ES256 fixed: given the assertion,
   * the key set and the expected audience it returns the verified claims or
   * the reason it raised.
   */
  type Decoder = (string, Option<KeySet>, string) -> Result<Claims, string>

  /** The two module-level caches. */
  datatype Caches = Caches(certs: Option<KeySet>, audience: Option<string>)

  /** The effect of one call: the cache after it, the requests it sent, what it returned. */
  datatype Step<S, T> = Step(state: S, sent: seq<Request>, result: T)

  /** Both halves of `validate_assertion`'s pair: (email, sub), each possibly None. */
  type IdentityPair = (Option<string>, Option<string>)

  /** One call of `certs()` with cache contents `cached`. */
  function CertsCall(cached: Option<KeySet>, fetched: CertResponse): (s: Step<Option<KeySet>, Result<Option<KeySet>, FetchError>>)
    ensures s.result.Err? ==> s.state == cached
    ensures s.result.Ok? ==> s.result.value == s.state
    ensures cached.Some? ==> s.state == cached && s.sent == []
    ensures cached.None? ==> s.sent == [Get(PublicKeyUrl)]
  {
    if cached.Some? then Step(cached, [], Ok(cached))
    else
      match fetched
      case Err(e) => Step(cached, [Get(PublicKeyUrl)], Err(e))
      case Ok(body) => Step(body, [Get(PublicKeyUrl)], Ok(body))
  }

  /** One call of `audience()` with cache contents `cached`. */
  function AudienceCall(cached: Option<string>, server: MetadataServer): (s: Step<Option<string>, Result<string, FetchError>>)
    ensures s.result.Err? ==> s.state == cached
    ensures s.result.Ok? ==> s.state == Some(s.result.value)
    ensures cached.Some? ==> s.state == cached && s.sent == []
  {
    if cached.Some? then Step(cached, [], Ok(cached.value))
    else
      var numberUrl := MetadataUrl(NumericProjectIdItem);
      match server(numberUrl)
      case Err(e) => Step(cached, [Get(numberUrl)], Err(e))
      case Ok(projectNumber) =>
        var idUrl := MetadataUrl(ProjectIdItem);
        match server(idUrl)
        case Err(e) => Step(cached, [Get(numberUrl), Get(idUrl)], Err(e))
        case Ok(projectId) =>
          var aud := FormatAudience(projectNumber, projectId);
          Step(Some(aud), [Get(numberUrl), Get(idUrl)], Ok(aud))
  }

  /**
   * One call of `validate_assertion`: the keys first, then the audience, then
   * the decode, then the `email` and `sub` claims. Any failure on the way is
   * caught and yields (None, None).
   */
  function Validate(c: Caches, assertion: string, fetched: CertResponse, server: MetadataServer, decode: Decoder): (s: Step<Caches, IdentityPair>)
    ensures s.result.0.Some? <==> s.result.1.Some?
    ensures var keys := CertsCall(c.certs, fetched);
      var aud := AudienceCall(c.audience, server);
      keys.result.Ok? && aud.result.Ok? && decode(assertion, keys.result.value, aud.result.value).Ok? ==>
        var info := decode(assertion, keys.result.value, aud.result.value).value;
        "email" in info && "sub" in info ==> s.result == (Some(info["email"]), Some(info["sub"]))
  {
    var keys := CertsCall(c.certs, fetched);
    if keys.result.Err? then Step(c.(certs := keys.state), keys.sent, (None, None))
    else
      var aud := AudienceCall(c.audience, server);
      var after := Caches(keys.state, aud.state);
      var sent := keys.sent + aud.sent;
      if aud.result.Err? then Step(after, sent, (None, None))
      else
        match decode(assertion, keys.result.value, aud.result.value)
        case Err(_) => Step(after, sent, (None, None))
        case Ok(info) =>
          if "email" in info && "sub" in info
          then Step(after, sent, (Some(info["email"]), Some(info["sub"])))
          else Step(after, sent, (None, None))
  }

  /**
   * The process state of the helpers: the fields stand for the globals
   * `CERTS` and `AUDIENCE`; `sent` logs every outbound GET.
   */
  class AuthCaches {
    var certs: Option<KeySet>
    var audience: Option<string>
    ghost var sent: seq<Request>

    /** Process start: both globals are None and nothing has been requested. */
    constructor ()
      ensures certs == None && audience == None && sent == []
    {
      certs := None;
      audience := None;
      sent := [];
    }

    /** `certs()`: fetch the key set only while the cache is unset; a failure is not stored. */
    method Certs(fetched: CertResponse) returns (r: Result<Option<KeySet>, FetchError>)
      modifies this
      ensures var s := CertsCall(old(certs), fetched);
        certs == s.state && r == s.result && sent == old(sent) + s.sent
      ensures audience == old(audience)
    {
      if certs.None? {
        sent := sent + [Get(PublicKeyUrl)];
        if fetched.Err? {
          return Err(fetched.error);
        }
        certs := fetched.value;
      }
      r := Ok(certs);
    }

    /** `audience()`: two metadata lookups while unset; the value is stored only once both returned. */
    method Audience(server: MetadataServer) returns (r: Result<string, FetchError>)
      modifies this
      ensures var s := AudienceCall(old(audience), server);
        audience == s.state && r == s.result && sent == old(sent) + s.sent
      ensures certs == old(certs)
    {
      if audience.None? {
        var numberUrl, projectNumber := GetMetadata(NumericProjectIdItem, server);
        sent := sent + [Get(numberUrl)];
        if projectNumber.Err? {
          return Err(projectNumber.error);
        }
        var idUrl, projectId := GetMetadata(ProjectIdItem, server);
        sent := sent + [Get(idUrl)];
        if projectId.Err? {
          return Err(projectId.error);
        }
        audience := Some(FormatAudience(projectNumber.value, projectId.value));
      }
      r := Ok(audience.value);
    }

    /** `validate_assertion`: the caller's (email, sub), or (None, None) on any failure. */
    method ValidateAssertion(assertion: string, fetched: CertResponse, server: MetadataServer, decode: Decoder)
      returns (email: Option<string>, sub: Option<string>)
      modifies this
      ensures var s := Validate(Caches(old(certs), old(audience)), assertion, fetched, server, decode);
        Caches(certs, audience) == s.state && sent == old(sent) + s.sent && (email, sub) == s.result
    {
      var keys := Certs(fetched);
      if keys.Err? {
        return None, None;
      }
      var aud := Audience(server);
      if aud.Err? {
        return None, None;
      }
      var decoded := decode(assertion, keys.value, aud.value);
      if decoded.Err? {
        return None, None;
      }
      var info := decoded.value;
      if "email" in info && "sub" in info {
        email, sub := Some(info["email"]), Some(info["sub"]);
      } else {
        email, sub := None, None;
      }
    }
  }
}
