// The HTTP exchange as the dashboard sees it through `requests`: a request
// goes out, and either the transport fails or a response with a status, a
// reason phrase and a body comes back. The backend itself is a function from
// requests to replies, so every loop over it is deterministic.

module Http {

  import opened Wrappers
  import opened PyText
  import opened PyValue

  type Headers = seq<(string, string)>

  datatype Request =
    | HttpGet(url: string, headers: Headers)
    | HttpPost(url: string, headers: Headers, payload: Json)

  /** A response body: decoded JSON, or text that `response.json()` refuses. */
  datatype Body = Json(value: Json) | NotJson(text: string)

  datatype Reply =
    | TransportFailure   // connection refused, timeout, ...: a RequestException
    | Response(status: int, reason: string, body: Body)

  /** The statuses for which `raise_for_status()` raises. */
  predicate IsHttpError(status: int)
  {
    400 <= status < 600
  }

  /** The text of the HTTPError that `raise_for_status()` raises. */
  function HttpErrorText(status: int, reason: string, url: string): (r: string)
    requires IsHttpError(status)
    ensures StartsWith(r, IntText(status) + " ")
  {
    var kind := if status < 500 then "Client Error" else "Server Error";
    IntText(status) + " " + kind + ": " + reason + " for url: " + url
  }

  /** The value of the first header with the given name. */
  function Header(hs: Headers, name: string): (r: Option<string>)
    ensures r.Some? <==> exists i :: 0 <= i < |hs| && hs[i].0 == name
  {
    if hs == [] then None
    else if hs[0].0 == name then Some(hs[0].1)
    else Header(hs[1..], name)
  }
}
