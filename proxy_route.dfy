/**
 * The proxy endpoint `/api/process`: a liveness probe against the backend's
 * `/health`, then a forward of the multipart form to the backend's `/upload`,
 * with every outcome mapped to exactly one JSON reply.
 *
 * Each network interaction is an abstract outcome handed in by the caller; a
 * request aborted by the five-second deadline is one kind of thrown error. The
 * handler's observable calls are recorded in a trace, so that the order of the
 * probe and the forward can be stated.
 */
module ProxyRoute {
  import opened JsValues

  /** Backend origin used when `BACKEND_URL` is unset or empty. */
  const DefaultApiUrl := "http://localhost:5000"
  const HealthPath := "/health"
  const UploadPath := "/upload"

  const UnavailableMessage := "Backend service is unavailable"
  const FailedMessage := "Failed to process request"
  const UnknownError := "Unknown error"

  /** `process.env.BACKEND_URL || 'http://localhost:5000'`: an empty value is falsy and also yields the default. */
  function ApiUrl(backendUrl: Option<string>): (url: string)
    ensures url != ""
    ensures backendUrl.Some? && backendUrl.value != "" ==> url == backendUrl.value
    ensures backendUrl.None? || backendUrl.value == "" ==> url == DefaultApiUrl
  {
    if backendUrl.Some? && backendUrl.value != "" then backendUrl.value else DefaultApiUrl
  }

  /** What `fetch(API_URL + "/health")` did: resolved with a status, or threw (network error, abort on deadline). */
  datatype HealthOutcome = HealthReplied(status: HttpStatus) | HealthThrew(e: Thrown)

  /**
   * What the forward path met, in the order the handler meets it:
   * `request.formData()` throws; or `fetch(API_URL + "/upload")` throws (network
   * error, abort on deadline); or the backend replies with a status and a body that
   * reads as text (`None`: the read failed) and parses as JSON (or fails to).
   */
  datatype ForwardOutcome =
    | FormDataThrew(e: Thrown)
    | UploadThrew(e: Thrown)
    | UploadReplied(status: HttpStatus, text: Option<string>, json: JsonOutcome)

  /** An observable step of the handler. */
  datatype Call = Fetch(verb: string, url: string) | ReadFormData | ReadText | ReadJson

  function Probe(apiUrl: string): Call {
    Fetch("GET", apiUrl + HealthPath)
  }

  function Forward(apiUrl: string): Call {
    Fetch("POST", apiUrl + UploadPath)
  }

  datatype Reply = Reply(status: HttpStatus, body: Json)

  /** The reply together with the calls the handler made to produce it, in order. */
  datatype Handled = Handled(reply: Reply, calls: seq<Call>)

  /** `checkBackendHealth`: true only for an ok `/health` response; anything thrown gives false. */
  function CheckBackendHealth(health: HealthOutcome): (healthy: bool)
    ensures healthy ==> health.HealthReplied?
    ensures health.HealthReplied? ==> (healthy <==> 200 <= health.status < 300)
  {
    match health
    case HealthReplied(status) => IsOk(status)
    case HealthThrew(_) => false
  }

  /** `error instanceof Error ? error.message : 'Unknown error'`. */
  function ErrorMessage(e: Thrown): string {
    match e
    case ErrorObject(message) => message
    case NonError => UnknownError
  }

  /** The envelope `{success: false, message}`. */
  function Failure(message: string): (body: Json)
    ensures Prop(body, "success") == Got(Some(JBool(false)))
    ensures Prop(body, "message") == Got(Some(JStr(message)))
    ensures Prop(body, "error") == Got(None)
  {
    JObj(map["success" := JBool(false), "message" := JStr(message)])
  }

  /** The envelope `{success: false, message: 'Failed to process request', error}`. */
  function Crash(error: string): (body: Json)
    ensures Prop(body, "success") == Got(Some(JBool(false)))
    ensures Prop(body, "message") == Got(Some(JStr(FailedMessage)))
    ensures Prop(body, "error") == Got(Some(JStr(error)))
  {
    JObj(map["success" := JBool(false), "message" := JStr(FailedMessage), "error" := JStr(error)])
  }

  /** `Backend error (${status}): ${errorText}`. */
  function BackendErrorMessage(status: HttpStatus, text: string): (m: string)
    ensures |m| >= 19 + |text|
    ensures m[..15] == "Backend error ("
    ensures m[|m| - |text|..] == text
  {
    "Backend error (" + Decimal(status) + "): " + text
  }

  /** In `digits + ")" + rest`, the first `)` stands right after the digits. */
  lemma FirstParenAfterDigits(x: string, digits: string, rest: string)
    requires AllDigits(digits) && x == digits + ")" + rest
    ensures |digits| < |x| && x[|digits|] == ')'
    ensures forall k :: 0 <= k < |digits| ==> x[k] != ')'
  {
    forall k | 0 <= k < |digits| ensures x[k] != ')' {
      assert x[k] == digits[k];
    }
  }

  /** The upstream status and body text can both be read back from the message. */
  lemma BackendErrorMessageInjective(s1: HttpStatus, t1: string, s2: HttpStatus, t2: string)
    requires BackendErrorMessage(s1, t1) == BackendErrorMessage(s2, t2)
    ensures s1 == s2 && t1 == t2
  {
    var d1, d2 := Decimal(s1), Decimal(s2);
    var m := BackendErrorMessage(s1, t1);
    assert m == "Backend error (" + d1 + "): " + t1;
    assert m == "Backend error (" + d2 + "): " + t2;
    var x := m[15..];
    assert x == d1 + ")" + (": " + t1);
    assert x == d2 + ")" + (": " + t2);
    FirstParenAfterDigits(x, d1, ": " + t1);
    FirstParenAfterDigits(x, d2, ": " + t2);
    assert |d1| == |d2|;
    assert d1 == x[..|d1|] == d2;
    DecimalInjective(s1, s2);
    assert t1 == m[18 + |d1|..] == t2;
  }

  /**
   * The statuses whose responses have no body. `NextResponse.json` with a body
   * and one of these statuses throws a `TypeError`.
   */
  predicate NullBodyStatus(status: int) {
    status == 101 || status == 103 || status == 204 || status == 205 || status == 304
  }

  /**
   * The handler's reply once the probe has passed and the form has been read.
   * `nullBodyError` is the message of the `TypeError` that `NextResponse.json`
   * throws when asked to pass on a null-body status; the catch block reports it.
   */
  function ForwardReply(forward: ForwardOutcome, nullBodyError: string): Reply
    requires !forward.FormDataThrew?
  {
    match forward
    case UploadThrew(e) => Reply(500, Crash(ErrorMessage(e)))
    case UploadReplied(status, text, json) =>
      if !IsOk(status) then
        if NullBodyStatus(status) then Reply(500, Crash(nullBodyError))
        else Reply(status, Failure(BackendErrorMessage(status, text.GetOr(UnknownError))))
      else
        match json
        case Parsed(data) => Reply(200, data)
        case ParseThrew(e) => Reply(500, Crash(ErrorMessage(e)))
  }

  /** The calls made after the form has been read: the forward, then the body read the status selects. */
  function ForwardCalls(apiUrl: string, forward: ForwardOutcome): seq<Call>
    requires !forward.FormDataThrew?
  {
    match forward
    case UploadThrew(_) => [Forward(apiUrl)]
    case UploadReplied(status, _, _) => [Forward(apiUrl), if IsOk(status) then ReadJson else ReadText]
  }

  /**
   * `POST /api/process`. `nullBodyError` is the runtime's message for the
   * `TypeError` raised when an upstream 304 is to be passed on.
   */
  function Post(apiUrl: string, health: HealthOutcome, forward: ForwardOutcome, nullBodyError: string): (r: Handled)
    // The probe comes first, always.
    ensures |r.calls| >= 1 && r.calls[0] == Probe(apiUrl)
    // A failed probe short-circuits with 503 before the form is read or anything is forwarded.
    ensures !CheckBackendHealth(health) <==> r.calls == [Probe(apiUrl)]
    ensures !CheckBackendHealth(health) ==> r.reply == Reply(503, Failure(UnavailableMessage))
    // The forward is issued exactly when the probe passed and the form was read, once, after both.
    ensures Forward(apiUrl) in r.calls <==> CheckBackendHealth(health) && !forward.FormDataThrew?
    ensures forall i :: 0 <= i < |r.calls| && r.calls[i] == Forward(apiUrl) ==>
              i == 2 && r.calls[1] == ReadFormData
    // An upstream error status is passed on, with the status and body text in the message.
    ensures CheckBackendHealth(health) && forward.UploadReplied? && !IsOk(forward.status) && forward.status != 304 ==>
              r.reply.status == forward.status &&
              r.reply.body == Failure(BackendErrorMessage(forward.status, forward.text.GetOr(UnknownError)))
    // A 304 cannot carry the error envelope: building that reply throws, and the catch block answers 500.
    ensures CheckBackendHealth(health) && forward.UploadReplied? && forward.status == 304 ==>
              r.reply == Reply(500, Crash(nullBodyError))
    // An upstream success is relayed unchanged, with the default status 200.
    ensures CheckBackendHealth(health) && forward.UploadReplied? && IsOk(forward.status) && forward.json.Parsed? ==>
              r.reply == Reply(200, forward.json.value)
    // Anything thrown on the forward path becomes a 500 crash envelope.
    ensures CheckBackendHealth(health) && (forward.FormDataThrew? || forward.UploadThrew?) ==>
              r.reply == Reply(500, Crash(ErrorMessage(forward.e)))
    ensures CheckBackendHealth(health) && forward.UploadReplied? && IsOk(forward.status) && forward.json.ParseThrew? ==>
              r.reply == Reply(500, Crash(ErrorMessage(forward.json.e)))
    // Every reply the handler builds itself says `success: false`.
    ensures !(CheckBackendHealth(health) && forward.UploadReplied? && IsOk(forward.status) && forward.json.Parsed?) ==>
              Prop(r.reply.body, "success") == Got(Some(JBool(false)))
  {
    if !CheckBackendHealth(health) then
      Handled(Reply(503, Failure(UnavailableMessage)), [Probe(apiUrl)])
    else if forward.FormDataThrew? then
      Handled(Reply(500, Crash(ErrorMessage(forward.e))), [Probe(apiUrl), ReadFormData])
    else
      Handled(ForwardReply(forward, nullBodyError), [Probe(apiUrl), ReadFormData] + ForwardCalls(apiUrl, forward))
  }

  datatype HealthReport = HealthReport(status: HttpStatus, body: Json)

  /** `GET /api/process`: `healthy` with 200 when the probe passes, `degraded` with 503 otherwise. */
  function Get(health: HealthOutcome, timestamp: string): (r: HealthReport)
    ensures r.status == 200 <==> CheckBackendHealth(health)
    ensures r.status == 503 <==> !CheckBackendHealth(health)
    ensures Prop(r.body, "status") == Got(Some(JStr(if CheckBackendHealth(health) then "healthy" else "degraded")))
    ensures Prop(r.body, "timestamp") == Got(Some(JStr(timestamp)))
  {
    var healthy := CheckBackendHealth(health);
    HealthReport(
      if healthy then 200 else 503,
      JObj(map["status" := JStr(if healthy then "healthy" else "degraded"), "timestamp" := JStr(timestamp)]))
  }

  /** The monitoring endpoint reports healthy exactly when an upload would get past the probe. */
  lemma GetAgreesWithPost(apiUrl: string, health: HealthOutcome, forward: ForwardOutcome, nullBodyError: string,
                          timestamp: string)
    ensures Get(health, timestamp).status == 200 <==> ReadFormData in Post(apiUrl, health, forward, nullBodyError).calls
  {
    var r := Post(apiUrl, health, forward, nullBodyError);
    if CheckBackendHealth(health) {
      assert r.calls[1] == ReadFormData;
    } else {
      assert r.calls == [Probe(apiUrl)];
    }
  }
}
