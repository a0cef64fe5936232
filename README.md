# Identity-aware proxy request authentication, modelled in Dafny

The dashboard in `app.py` runs behind Google's Identity-Aware Proxy. Each
request carries a signed assertion (a JWT). `validate_assertion` decodes that
assertion against two process-wide caches:

- `CERTS` holds the proxy's public verification keys. `certs()` fetches them
  from `https://www.gstatic.com/iap/verify/public_key` only while the cache is
  unset.
- `AUDIENCE` holds the expected audience `/projects/{number}/apps/{id}`.
  `audience()` builds it from two project metadata lookups (`get_metadata`).

The result is the caller's `(email, sub)`, or `(None, None)` when anything
inside the `try` fails. Two small display helpers are also modelled: the
thousands label `agregar_k` and the id of a download button.

Modules:

- `Wrappers` (wrappers.dfy): `Option` and `Result`, which stand in for
  Python's `None` and for raised exceptions.
- `Network` (network.dfy): fetch errors, the log entry for one outbound GET,
  and the key endpoint URL.
- `Metadata` (metadata.dfy): the metadata URL builder and its inverse,
  `GetMetadata`, and the audience format with its parser.
- `IapAuth` (iap_auth.dfy): one pure function per call (`CertsCall`,
  `AudienceCall`, `Validate`). Each gives the cache after the call, the
  requests it sent and its result. The class `AuthCaches` holds the two
  globals as fields, plus a ghost log of the requests sent. Its methods
  `Certs`, `Audience` and `ValidateAssertion` update those fields in place and
  are proved equal to the functions.
- `AuthProperties` (auth_properties.dfy): properties over sequences of calls
  (memoisation, failures never cached) and the fail-closed behaviour of
  validation.
- `DisplayText` (display_text.dfy): `agregar_k` and the button id.

External collaborators are parameters:

- What a key fetch yields is a `CertResponse`: a parsed body, or the error
  raised. A JSON `null` body parses to `None`, and then `CERTS` stays `None`,
  as in the source.
- The metadata server is a function from URL to the response text, or an
  error.
- The JWT library's `decode` is a `Decoder` function from token, keys and
  audience to claims, or an error reason.

`certs()` has no invalidation, no retry when a key id is unknown, and no
request timeouts. The model has none of them either. `requests.get` does not
raise on an error status. A key response that is not JSON fails at
`response.json()`. An error page from the metadata server is returned as the
item's text. Accordingly, the metadata server function returns `Ok(text)` for
any response that arrived.

## Model

| member | source | states |
|---|---|---|
| `Metadata.MetadataUrl` | app.py:160-168 | the requested URL is the metadata endpoint followed by the project path, and the item can be read back from it |
| `Metadata.MetadataItemOnlyFromUrl` | app.py:160-168 | a URL names an item exactly when it is the URL built for that item (both directions) |
| `Metadata.MetadataUrlsDistinct` | app.py:160-168 | distinct items are requested from distinct URLs, none of them the key endpoint |
| `Metadata.GetMetadata` | app.py:151-176 | builds the URL step by step (endpoint, then path extended by the item); the URL names exactly the item, and the returned value is the server's answer for that URL |
| `Metadata.FormatAudience` | app.py:206-208 | `/projects/{number}/apps/{id}`; for a project number without '/', parsing the audience gives back both parts |
| `Metadata.AudienceRoundTrip` | app.py:206-208 | parsing the formatted audience of a slash-free project number returns that number and id |
| `Metadata.ParseAudience` | app.py:206-208 | an accepted audience has a project number free of '/' |
| `Metadata.ParseAudienceSound` | app.py:206-208 | every string the parser accepts is the audience formatted from the parts it returns |
| `Metadata.FormatAudienceInjective` | app.py:206-208 | two deployments with slash-free project numbers share an audience only if their number and id agree |
| `IapAuth.CertsCall` | app.py:118-139 | a failed fetch leaves the cache as it was; a success returns what is now cached; a filled cache sends nothing and stays; an unset cache sends exactly one key fetch |
| `IapAuth.AudienceCall` | app.py:189-211 | a failed lookup leaves the cache as it was (no partial value); a success caches and returns the same string; a filled cache sends nothing and stays |
| `IapAuth.Validate` | app.py:223-252 | the returned pair is never mixed: email is present exactly when sub is. When the keys and the audience resolve and the decoder accepts claims holding `email` and `sub`, exactly those two values are returned (the accept direction; `ValidateSuccessFromDecodedClaims` and the `ValidateRejects*` lemmas give the other) |
| `IapAuth.AuthCaches.constructor` | app.py:112-113 | both globals start as None and nothing has been requested |
| `IapAuth.AuthCaches.Certs` | app.py:118-139 | `certs()` on the field `CERTS`: new cache, result and requests logged as `CertsCall` says; `AUDIENCE` untouched |
| `IapAuth.AuthCaches.Audience` | app.py:189-211 | `audience()` on the field `AUDIENCE`: both lookups through `GetMetadata`, new cache, result and requests as `AudienceCall` says; `CERTS` untouched |
| `IapAuth.AuthCaches.ValidateAssertion` | app.py:223-252 | `validate_assertion` on both fields: caches, requests and the (email, sub) pair as `Validate` says |
| `AuthProperties.CachedCertsServeEveryCall` | app.py:130-139 | once `CERTS` holds a key set, every later call returns that set and no fetch happens |
| `AuthProperties.CertsFetchedUntilPopulated` | app.py:130-139 | from an unset cache, calls fetch up to and including the first one that yields a key set, so exactly that many fetches happen; from then on every call returns that set |
| `AuthProperties.FailedFetchesAreRetried` | app.py:130-136 | while no fetch yields a key set, `CERTS` stays None and every call fetches again (a failure is never cached) |
| `AuthProperties.CachedAudienceServesEveryCall` | app.py:198-211 | once `AUDIENCE` is set, every later call returns it and no metadata lookup happens |
| `AuthProperties.AudienceFromMetadata` | app.py:198-208 | from an unset cache: `numeric-project-id` is looked up first, and `project-id` only if that succeeded. The call succeeds exactly when both lookups do, with `/projects/{number}/apps/{id}`, which parses back. On failure nothing is stored |
| `AuthProperties.AudienceLookupsDistinct` | app.py:200-203 | the two lookups target different URLs, neither of them the key endpoint |
| `AuthProperties.ValidateSuccessFromDecodedClaims` | app.py:232-245 | a successful validation returns exactly the `email` and `sub` of claims the decoder accepted for the cached keys and audience |
| `AuthProperties.ValidateRejectsOnKeyFetchFailure` | app.py:232-252 | a key fetch failure on a cold cache yields (None, None), stores nothing and performs no metadata lookup |
| `AuthProperties.ValidateRejectsOnMetadataFailure` | app.py:232-252 | a failed metadata lookup on a cold audience cache yields (None, None) and leaves `AUDIENCE` unset |
| `AuthProperties.ValidateRejectsUndecodable` | app.py:232-252 | a decode error, or a missing `email` or `sub` claim, yields (None, None) |
| `AuthProperties.ValidateWithWarmCaches` | app.py:232-242 | with both caches filled, validation sends no request and changes no cache |
| `AuthProperties.ValidateAcceptsOnlyThisAudience` | app.py:234-242 | with a decoder that enforces the `aud` claim (section 4.1.3 of RFC 7519), an accepted assertion's `aud` is the resolved audience: on a cold cache, the one built from the two lookups |
| `AuthProperties.FirstRequestScenario` | app.py:223-252 | first request with key set {kid-1: K1}, project 123 / proj-x, and a token for alice@example.com / u-42: returns that identity and fills both caches |
| `AuthProperties.ProjectXAudience` | app.py:206-208 | the audience of project 123 / proj-x is the literal `/projects/123/apps/proj-x` |
| `DisplayText.NatToDecimal` | app.py:450-451 | the text is a non-empty string of digits with no leading zero |
| `DisplayText.DecimalRoundTrip` | app.py:450-451 | reading the digits back gives the number |
| `DisplayText.IntToDecimal` | app.py:451 | Python's `str` of an integer: non-empty, a leading '-' exactly for negative values, then digits that start with '0' only for zero (so no "-0" and no leading zeros) |
| `DisplayText.IntToDecimalRoundTrip` | app.py:450-451 | `str` of an integer (sign, then digits) parses back to the integer |
| `DisplayText.AgregarK` | app.py:450-451 | `agregar_k(v)` ends in 'K'; the text before it is `str(v)` in canonical form and parses back to `v` |
| `DisplayText.AgregarKInjective` | app.py:450-451 | different values get different labels |
| `DisplayText.RemoveAll` | app.py:332 | `replace('-', '')`: no hyphen remains, and every other character keeps its count |
| `DisplayText.RemoveAllAppend` | app.py:332 | removing a character distributes over concatenation |
| `DisplayText.RemoveAllAbsent` | app.py:332 | a string without the character is unchanged |
| `DisplayText.RemoveAllSplit` | app.py:332 | removal around one occurrence splits the string there |
| `DisplayText.DigitRunLength` | app.py:333 | the leading run of digits is maximal: all digits, followed by a non-digit or the end |
| `DisplayText.StripDigitRuns` | app.py:333 | `re.sub('\d+', '', s)` deletes every maximal digit run; the result has no digit |
| `DisplayText.RemoveDigits` | app.py:333 | reference filter: every digit count drops to zero and every other character keeps its count |
| `DisplayText.RemoveDigitsSkipsRun` | app.py:333 | a leading run of digits contributes nothing to the filter |
| `DisplayText.StripDigitRunsIsRemoveDigits` | app.py:333 | deleting whole digit runs is the same as deleting each digit |
| `DisplayText.ButtonId` | app.py:332-333 | the id has no hyphen and no digit, and keeps every other character of the UUID text with its count |
| `DisplayText.HexGroupHasNoHyphen` | app.py:332 | the hex groups of a canonical UUID text hold no hyphen |
| `DisplayText.CanonicalUuidWithoutHyphens` | app.py:332 | a canonical 8-4-4-4-12 UUID text has 32 characters once hyphens are removed |
| `DisplayText.CanonicalUuidChar` | app.py:332 | every character of a canonical UUID text is a hyphen or a lower-case hex digit |
| `DisplayText.ButtonIdLetters` | app.py:332-333 | for a canonical UUID text, every character of the id is a letter 'a' to 'f' |
| `DisplayText.CanonicalUuidButtonId` | app.py:332-333 | for a canonical UUID text, the id has at most 32 characters, all letters 'a' to 'f' |

## Left out

- HTTP: the GETs to the key endpoint and the metadata server (app.py:132, app.py:167), and the `Metadata-Flavor: Google` header. These are I/O; what they yield is a parameter of each call.
- JWT verification (app.py:234-242): the ES256 signature check (section 3.4 of RFC 7518) and the claim checks. They happen in a foreign library. The library is the `Decoder` parameter. The audience check is the stated assumption `EnforcesAudience`.
- The import at app.py:230 sits outside the `try`, so an import failure would escape instead of giving (None, None). The model covers only the `try` body.
- The diagnostic print to stderr (app.py:249) is I/O and is not modelled.
- Key invalidation, retry on an unknown key id, timeouts, single-flight filling and thread safety: the source has none of these. It uses bare globals and no locking, so concurrency is not modelled.
- IapAuth.Validate: claim values are strings. A JSON `null` or non-string `email`/`sub` claim is not represented. With a `null` email the source would return a mixed pair. A key document that is a JSON value other than an object or `null` is not represented either.
- DisplayText.AgregarK: modelled for integer arguments only (`str` of an int). Floats and other types passed to `agregar_k` are left out. The function is not called anywhere in app.py.
- DisplayText.StripDigitRuns: `\d` is modelled as the ASCII digits '0' to '9'. Python's `\d` also matches other Unicode decimal digits. These cannot occur in a UUID's text.
- The rest of `download_button` (app.py:300-345): pickling, base64 and `uuid.uuid4()`. These are library calls, and the UUID text is an input.
- Flask routes and the storage upload (`index`, `upload`, `server_error`, `say_hello`). These are web plumbing and I/O.
- Chart rendering, spreadsheet export and data reshaping (`download_excel`, `download_excel_torta`, `download_txt`, `botones_descarga`, `generar_graficos`, `dona_plotly`, `scatter_plot`, `convert_df`, `espacio`, `main`). These are rendering, floating point and file I/O.
- `validar_preprocesar_predecir_organizarrtados.Modelos_2` is not part of this model.

