// The health-check proxy of app/api/healthcheck/route.ts: given the target URL
// and an optional expected status, it fetches the URL on the browser's behalf
// and reports whether the answer counts as healthy. The fetch itself (network,
// 5-second abort timer, TLS override) is an input: its outcome.
module Health {
  import opened Js

  /** The query string of the incoming request; `Malformed` stands for a
      request whose URL cannot be parsed (the outer catch). */
  datatype Request = Malformed | Query(url: Option<string>, expectedStatus: Option<string>)

  /** What the outbound fetch did: answered with a status, or threw an error
      with a name and a message (the abort timer throws an "AbortError"). */
  datatype FetchOutcome = Responded(status: int) | Threw(name: string, message: string)

  /** The JSON body of the proxy's answer. */
  datatype Body =
    | ErrorBody(error: string)
    | Checked(healthy: bool, status: int, expectedStatus: Option<int>, url: string)
    | Unreachable(error: string, url: string)   // healthy: false, status: null

  datatype Reply = Reply(code: int, body: Body)

  /** Status classes of section 15 of RFC 9110. */
  datatype StatusClass = Informational | Successful | Redirection | ClientError | ServerError

  function ClassOf(status: int): (c: StatusClass)
    requires 100 <= status <= 599
    ensures c == Successful <==> 200 <= status <= 299
    ensures c == Redirection <==> 300 <= status <= 399
  {
    if status < 200 then Informational
    else if status < 300 then Successful
    else if status < 400 then Redirection
    else if status < 500 then ClientError
    else ServerError
  }

  /** The health rule: the exact expected status when one is given (and not
      empty), otherwise any status from 200 to 399. */
  function Verdict(status: int, expectedStatus: Option<string>): bool {
    if Truthy(expectedStatus) then ParseInt(expectedStatus.value) == Some(status)
    else 200 <= status < 400
  }

  /** With an expected status sent as the decimal text of `n`, healthy means
      the response status is exactly `n`. */
  lemma VerdictWithExpected(status: int, n: int)
    ensures Verdict(status, Some(IntToString(n))) <==> status == n
  {
    ParseIntOfIntToString(n);
  }

  /** Without an expected status (absent or empty), healthy means the status
      is in the Successful or Redirection class. */
  lemma VerdictDefault(status: int)
    requires 100 <= status <= 599
    ensures Verdict(status, None) <==> ClassOf(status) == Successful || ClassOf(status) == Redirection
    ensures Verdict(status, Some("")) == Verdict(status, None)
  {
  }

  const TimeoutError := "AbortError"

  /** The route's `GET` handler. */
  function HealthCheck(req: Request, fetch: FetchOutcome): (r: Reply)
    ensures r.code == 500 <==> req.Malformed?
    ensures r.code == 500 ==> r.body == ErrorBody("Failed to perform healthcheck")
    ensures r.code == 400 <==> req.Query? && !Truthy(req.url)
    ensures r.code == 400 ==> r.body == ErrorBody("URL is required")
    ensures r.code == 200 <==> req.Query? && Truthy(req.url)
    ensures r.body.Checked? <==> r.code == 200 && fetch.Responded?
    ensures r.body.Checked? ==>
      && r.body.status == fetch.status
      && r.body.url == req.url.value
      && (r.body.healthy <==> Verdict(fetch.status, req.expectedStatus))
      && r.body.expectedStatus == (if Truthy(req.expectedStatus) then ParseInt(req.expectedStatus.value) else None)
    ensures r.body.Unreachable? <==> r.code == 200 && fetch.Threw?
    ensures r.body.Unreachable? ==>
      && r.body.url == req.url.value
      && r.body.error == (if fetch.name == TimeoutError then "Timeout" else fetch.message)
  {
    match req
    case Malformed => Reply(500, ErrorBody("Failed to perform healthcheck"))
    case Query(url, expectedStatus) =>
      if !Truthy(url) then Reply(400, ErrorBody("URL is required"))
      else
        match fetch
        case Responded(status) =>
          Reply(200, Checked(Verdict(status, expectedStatus), status,
            if Truthy(expectedStatus) then ParseInt(expectedStatus.value) else None, url.value))
        case Threw(name, message) =>
          Reply(200, Unreachable(if name == TimeoutError then "Timeout" else message, url.value))
  }

  /** Without a URL the answer does not depend on the fetch: none is made. */
  lemma NoFetchWithoutUrl(req: Request, a: FetchOutcome, b: FetchOutcome)
    requires req.Query? && !Truthy(req.url)
    ensures HealthCheck(req, a) == HealthCheck(req, b)
  {
  }

  /** A failed fetch is never reported healthy and carries no status: the
      proxy itself still answers 200. */
  lemma FailedFetchIsUnhealthy(url: string, expectedStatus: Option<string>, name: string, message: string)
    requires url != ""
    ensures HealthCheck(Query(Some(url), expectedStatus), Threw(name, message)).code == 200
    ensures !HealthCheck(Query(Some(url), expectedStatus), Threw(name, message)).body.Checked?
  {
  }
}
