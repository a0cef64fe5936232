/**
 * The outbound side of the authentication helpers: the HTTP GETs they issue
 * and the ways such a request can fail. The requests themselves are not
 * modelled; callers pass in what a request would yield.
 */
module Network {

  /** Why an outbound request produced no usable value. */
  datatype FetchError =
    | RequestFailed   // the HTTP call raised (connection error, timeout, ...)
    | InvalidJson     // the response body could not be decoded as JSON

  /** One outbound HTTP GET, identified by the URL it targets. */
  datatype Request = Get(url: string)

  /** The identity gateway's published verification keys. */
  const PublicKeyUrl: string := "https://www.gstatic.com/iap/verify/public_key"

  /** The number of key-set fetches in a log of requests. */
  function KeyFetches(log: seq<Request>): (n: nat)
    ensures n <= |log|
    ensures n == 0 <==> Get(PublicKeyUrl) !in log
  {
    if log == [] then 0
    else (if log[0] == Get(PublicKeyUrl) then 1 else 0) + KeyFetches(log[1..])
  }
}
