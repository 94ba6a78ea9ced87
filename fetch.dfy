/** The dashboard's calls to its own `/api/cloudflare` endpoint, seen from the
    caller: the request a handler issues, and the outcome it then handles. The
    network is not modelled; each call's outcome is an input. */
module Fetch {
  import opened Types
  import Text

  datatype HttpMethod = GET | POST | PUT | DELETE

  /** A request as a handler issues it: method, path, the two credential headers
      taken from the selected account, and the JSON body (if any). */
  datatype Request<B> = Request(verb: HttpMethod, path: string, email: string, apiKey: string, body: Option<B>)

  /** An HTTP response whose body parsed as an envelope. */
  datatype Response<T> = Response(status: int, statusText: string, body: Envelope<T>)

  /** What `await fetch(...)` followed by `await res.json()` gives a handler:
      either something threw (a transport failure, or a body that is not JSON),
      with the error's message, or a response arrived. */
  datatype Outcome<T> = Threw(message: string) | Resolved(response: Response<T>)

  /** `res.ok`: the status is in the 2xx range. */
  predicate Ok(status: int)
  {
    200 <= status <= 299
  }

  const AccountsPath: string := "/api/cloudflare/accounts"
  const ZonesPath: string := "/api/cloudflare/zones"

  function ZonePath(zoneId: string): string
  {
    ZonesPath + "/" + zoneId
  }

  function RecordsPath(zoneId: string): string
  {
    ZonePath(zoneId) + "/dns_records"
  }

  function RecordPath(zoneId: string, recordId: string): string
  {
    RecordsPath(zoneId) + "/" + recordId
  }

  /** `errors.map(e => e.message)`. */
  function Messages(errors: seq<ApiMessage>): (ms: seq<string>)
    ensures |ms| == |errors|
    ensures forall i :: 0 <= i < |errors| ==> ms[i] == errors[i].message
    decreases |errors|
  {
    if |errors| == 0 then [] else [errors[0].message] + Messages(errors[1..])
  }

  /** The error text every handler shows for a failed envelope:
      the messages joined by ", ". */
  function JoinedErrors(errors: seq<ApiMessage>): (s: string)
    ensures |errors| == 0 ==> s == ""
    ensures |errors| > 0 ==> errors[0].message <= s
  {
    var ms := Messages(errors);
    if |ms| >= 2 then
      assert Text.Join(ms, ", ") == ms[0] + (", " + Text.Join(ms[1..], ", "));
      Text.Join(ms, ", ")
    else Text.Join(ms, ", ")
  }

  /** The joined text is empty exactly when there is no error entry, or a single
      entry with an empty message; such a failure is falsy, so a view that tests
      the error cell's truthiness does not show it. */
  lemma JoinedErrorsEmpty(errors: seq<ApiMessage>)
    ensures JoinedErrors(errors) == "" <==> |errors| == 0 || (|errors| == 1 && errors[0].message == "")
  {
    var ms := Messages(errors);
    if |errors| >= 2 {
      assert JoinedErrors(errors) == ms[0] + ", " + Text.Join(ms[1..], ", ");
    }
  }

  /** A single error's text is its message. */
  lemma JoinedErrorsSingle(e: ApiMessage)
    ensures JoinedErrors([e]) == e.message
  {
    assert Messages([e]) == [e.message];
  }

  /** How a handler that never looks at `res.ok` reads an outcome: a thrown
      error gives its message, a successful envelope its result, a failed
      envelope its joined errors, whatever the HTTP status. */
  function Settle<T>(o: Outcome<T>): (r: Result<T, string>)
    ensures r.Success? <==> o.Resolved? && o.response.body.success
    ensures o.Threw? ==> r == Failure(o.message)
    ensures o.Resolved? && o.response.body.success ==> r == Success(o.response.body.result)
    ensures o.Resolved? && !o.response.body.success ==> r == Failure(JoinedErrors(o.response.body.errors))
  {
    match o
    case Threw(m) => Failure(m)
    case Resolved(res) =>
      if res.body.success then Success(res.body.result) else Failure(JoinedErrors(res.body.errors))
  }

  /** How a handler that throws `new Error(notOk(status, statusText))` on a
      non-ok status reads an outcome: the body of a non-ok response is never read. */
  function SettleChecked<T>(o: Outcome<T>, notOk: (int, string) -> string): (r: Result<T, string>)
    ensures r.Success? <==> o.Resolved? && Ok(o.response.status) && o.response.body.success
  {
    if o.Resolved? && !Ok(o.response.status) then Failure(notOk(o.response.status, o.response.statusText))
    else Settle(o)
  }

  /** The unchecked reading ignores the status: two responses that differ only in
      status and status text settle alike. */
  lemma SettleIgnoresStatus<T>(body: Envelope<T>, s1: int, t1: string, s2: int, t2: string)
    ensures Settle(Resolved(Response(s1, t1, body))) == Settle(Resolved(Response(s2, t2, body)))
  {
  }

  /** The checked reading never looks at the body of a non-ok response, and
      agrees with the unchecked reading on every other outcome. */
  lemma SettleCheckedAgrees<T>(o: Outcome<T>, notOk: (int, string) -> string)
    ensures o.Resolved? && !Ok(o.response.status) ==>
              SettleChecked(o, notOk) == Failure(notOk(o.response.status, o.response.statusText))
    ensures o.Threw? || Ok(o.response.status) ==> SettleChecked(o, notOk) == Settle(o)
  {
  }

  /** `Error: ${res.status}`, thrown by the record list and the sidebar. */
  function StatusError(status: int, statusText: string): (m: string)
    ensures Text.Truthy(Some(m))
  {
    "Error: " + Text.IntToString(status)
  }

  /** `Error: ${res.status} ${res.statusText}`, thrown by the domain list. */
  function StatusLineError(status: int, statusText: string): (m: string)
    ensures Text.Truthy(Some(m))
  {
    "Error: " + Text.IntToString(status) + " " + statusText
  }
}
