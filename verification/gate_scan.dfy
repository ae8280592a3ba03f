/** The gate scan screen: a member scans the QR at a gate and logs an entry
    or exit. The camera feeds decoded texts to `OnGateDecode`; the log
    button starts `submitScan` (`StartScan`), and `FinishScan` takes the
    backend's answer, given as an input, once the request settles. */
module GateScan {
  import opened Wrappers
  import opened JsText
  import opened JsValue
  import opened GateQr
  import Gates

  datatype ScanForm = ScanForm(
    purpose: string,
    vehicleNumber: string,
    lastRaw: string,
    payload: Option<GatePayload>,
    busy: bool)

  function InitialScanForm(): (r: ScanForm)
    ensures r.payload.None? && !r.busy
    ensures r.purpose == "" && r.vehicleNumber == "" && r.lastRaw == ""
  {
    ScanForm("", "", "", None, false)
  }

  /** `payload?.gate_id` is truthy. */
  predicate HasGate(p: Option<GatePayload>) {
    p.Some? && p.value.gateId != ""
  }

  /** The decode callback. Once the screen is torn down (`stopped`) a late
      decode is ignored; otherwise the raw text is always recorded and the
      payload replaced only by one with a non-empty gate id. */
  function OnGateDecode(st: ScanForm, decoded: string, stopped: bool, parseJson: JsonParser, parseUrl: UrlParser): (r: ScanForm)
    ensures stopped ==> r == st
    ensures !stopped ==> r.lastRaw == decoded
    ensures r.purpose == st.purpose && r.vehicleNumber == st.vehicleNumber && r.busy == st.busy
    ensures !stopped && HasGate(ExtractGatePayload(decoded, parseJson, parseUrl))
            ==> r.payload == ExtractGatePayload(decoded, parseJson, parseUrl)
    ensures !HasGate(ExtractGatePayload(decoded, parseJson, parseUrl)) ==> r.payload == st.payload
    ensures HasGate(st.payload) ==> HasGate(r.payload)
  {
    if stopped then st
    else
      var p := ExtractGatePayload(decoded, parseJson, parseUrl);
      st.(lastRaw := decoded, payload := if HasGate(p) then p else st.payload)
  }

  /** The log button is enabled only while no submission is in flight and a
      gate has been scanned. */
  predicate ButtonEnabled(st: ScanForm) {
    !st.busy && HasGate(st.payload)
  }

  /** The JSON body posted to `/api/scan`; `None` is `null`. */
  datatype ScanBody = ScanBody(
    gateId: string,
    location: Option<string>,
    purpose: Option<string>,
    vehicleNumber: Option<string>)

  datatype ScanRequest = ScanRequest(url: string, authorization: string, body: ScanBody)

  /** What `fetch` settled with: a rejection, or a response whose body parsed
      as JSON (`None` when `res.json()` rejected and `{}` stands in). */
  datatype HttpOutcome = NetworkFailure(message: string) | Response(status: nat, body: Option<JValue>)

  /** `res.ok`. */
  predicate IsOkStatus(status: nat) {
    200 <= status <= 299
  }

  /** The body as the screens read it: `await res.json().catch(() => ({}))`. */
  function ResponseData(body: Option<JValue>): (r: JValue)
    ensures body.None? ==> r == JObject(map[])
    ensures body.Some? ==> r == body.value
  {
    body.GetOr(JObject(map[]))
  }

  /** `data?.detail || \`Scan failed (${status})\``. */
  function FailureMessage(data: JValue, status: nat): (r: JValue)
    ensures Truthy(OptMember(Some(data), "detail")) ==> r == data.props["detail"]
    ensures !Truthy(OptMember(Some(data), "detail")) ==> r == JString("Scan failed (" + NatToString(status) + ")")
  {
    Or(OptMember(Some(data), "detail"), Str("Scan failed (" + NatToString(status) + ")")).value
  }

  datatype Notice = NoNotice | ErrorToast(message: JValue) | SuccessToast(text: string)

  const MissingBackend := "Missing REACT_APP_BACKEND_URL."
  const NoGateScanned := "Scan a valid Gate QR first."

  /** `${token}`: a missing token shows as `null`. */
  function BearerOf(token: Option<string>): string {
    "Bearer " + token.GetOr("null")
  }

  /** The request body for a scanned gate: its location or `null`, and the
      trimmed purpose and vehicle number or `null`. */
  function BodyFor(p: GatePayload, purpose: string, vehicleNumber: string): (b: ScanBody)
    ensures b.gateId == p.gateId
    ensures b.location.None? <==> p.location == ""
    ensures b.location.Some? ==> b.location.value == p.location
    ensures b.purpose == TrimmedOrNull(purpose) && b.vehicleNumber == TrimmedOrNull(vehicleNumber)
  {
    ScanBody(p.gateId, if p.location == "" then None else Some(p.location),
             TrimmedOrNull(purpose), TrimmedOrNull(vehicleNumber))
  }

  /** Where `submitScan` stands when it awaits `fetch`: the form, the request
      sent and the notification the guards raised. */
  datatype Started = Started(form: ScanForm, request: Option<ScanRequest>, notice: Notice)

  /** `submitScan` up to its first `await`: the two guards, then the busy flag
      is set and the request goes out. */
  function StartScan(st: ScanForm, backendUrl: string, token: Option<string>): (r: Started)
    ensures r.request.Some? <==> backendUrl != "" && HasGate(st.payload)
    // a guard that fails reports and changes nothing
    ensures backendUrl == "" ==> r == Started(st, None, ErrorToast(JString(MissingBackend)))
    ensures backendUrl != "" && !HasGate(st.payload) ==> r == Started(st, None, ErrorToast(JString(NoGateScanned)))
    // otherwise the request is in flight and the form is busy
    ensures r.request.Some? ==>
              && r.form == st.(busy := true) && r.notice == NoNotice
              && r.request.value.url == backendUrl + "/api/scan"
              && r.request.value.authorization == BearerOf(token)
              && r.request.value.body == BodyFor(st.payload.value, st.purpose, st.vehicleNumber)
  {
    if backendUrl == "" then Started(st, None, ErrorToast(JString(MissingBackend)))
    else if !HasGate(st.payload) then Started(st, None, ErrorToast(JString(NoGateScanned)))
    else
      var body := BodyFor(st.payload.value, st.purpose, st.vehicleNumber);
      Started(st.(busy := true), Some(ScanRequest(backendUrl + "/api/scan", BearerOf(token), body)), NoNotice)
  }

  /** `Logged ${data.status} at ${data.gate_id}`; `None` when interpolating
      either member throws. */
  function LoggedText(data: JValue): (r: Option<string>)
    requires data != JNull
    ensures r.Some? <==> Show(Member(data, "status")).Some? && Show(Member(data, "gate_id")).Some?
    ensures r.Some? ==> r.value == "Logged " + Show(Member(data, "status")).value + " at " + Show(Member(data, "gate_id")).value
  {
    var status := Show(Member(data, "status"));
    var gate := Show(Member(data, "gate_id"));
    if status.Some? && gate.Some? then Some("Logged " + status.value + " at " + gate.value) else None
  }

  /** The form, the notification and whether an exception escaped once the
      request has settled. */
  datatype Settled = Settled(form: ScanForm, notice: Notice, escaped: bool)

  /** `submitScan` after `fetch` settles with `outcome`; the `finally` block
      releases the busy flag on every path. */
  function FinishScan(st: ScanForm, outcome: HttpOutcome): (r: Settled)
    ensures !r.form.busy
    // the scanned payload and raw text are never touched
    ensures r.form.payload == st.payload && r.form.lastRaw == st.lastRaw
    // a failed request escapes without a notification
    ensures outcome.NetworkFailure? ==> r == Settled(st.(busy := false), NoNotice, true)
    // a rejection reports the server's detail or the status and keeps the fields
    ensures outcome.Response? && !IsOkStatus(outcome.status) ==>
              r == Settled(st.(busy := false), ErrorToast(FailureMessage(ResponseData(outcome.body), outcome.status)), false)
    // an accepted scan reports the logged status and gate and clears the optional fields
    ensures outcome.Response? && IsOkStatus(outcome.status) && ResponseData(outcome.body) != JNull
            && LoggedText(ResponseData(outcome.body)).Some? ==>
              r == Settled(st.(busy := false, purpose := "", vehicleNumber := ""),
                           SuccessToast(LoggedText(ResponseData(outcome.body)).value), false)
    // reading `null` or interpolating a member that cannot be converted escapes
    ensures outcome.Response? && IsOkStatus(outcome.status)
            && (ResponseData(outcome.body) == JNull || LoggedText(ResponseData(outcome.body)).None?) ==>
              r == Settled(st.(busy := false), NoNotice, true)
  {
    var idle := st.(busy := false);
    match outcome
    case NetworkFailure(_) => Settled(idle, NoNotice, true)
    case Response(status, raw) =>
      var data := ResponseData(raw);
      if !IsOkStatus(status) then Settled(idle, ErrorToast(FailureMessage(data, status)), false)
      else if data == JNull then Settled(idle, NoNotice, true)
      else
        var text := LoggedText(data);
        if text.None? then Settled(idle, NoNotice, true)
        else Settled(idle.(purpose := "", vehicleNumber := ""), SuccessToast(text.value), false)
  }

  /** The state after the whole of `submitScan`, the request it sent, the
      notification it raised and whether an exception escaped it. */
  datatype SubmitResult = SubmitResult(form: ScanForm, request: Option<ScanRequest>, notice: Notice, escaped: bool)

  /** `submitScan` from click to settlement, for the backend base URL, the
      session token and the outcome of the request (consulted only when one
      is sent). */
  function SubmitScan(st: ScanForm, backendUrl: string, token: Option<string>, outcome: HttpOutcome): (r: SubmitResult)
    // nothing is sent without a backend URL or a scanned gate, and nothing changes
    ensures backendUrl == "" || !HasGate(st.payload) ==> r.request.None? && r.form == st && r.notice.ErrorToast? && !r.escaped
    ensures r.request.Some? <==> backendUrl != "" && HasGate(st.payload)
    // the request carries the session token and the scanned gate with the trimmed optional fields
    ensures r.request.Some? ==>
              && r.request.value.url == backendUrl + "/api/scan"
              && r.request.value.authorization == BearerOf(token)
              && r.request.value.body.gateId == st.payload.value.gateId
              && r.request.value.body.location == (if st.payload.value.location == "" then None else Some(st.payload.value.location))
              && r.request.value.body.purpose == TrimmedOrNull(st.purpose)
              && r.request.value.body.vehicleNumber == TrimmedOrNull(st.vehicleNumber)
    // busy is released on every path that sent a request
    ensures r.request.Some? ==> !r.form.busy
    // the scanned payload and raw text are never touched
    ensures r.form.payload == st.payload && r.form.lastRaw == st.lastRaw
    // a rejection reports the server's detail or the status and keeps the fields
    ensures r.request.Some? && outcome.Response? && !IsOkStatus(outcome.status) ==>
              && r.notice == ErrorToast(FailureMessage(ResponseData(outcome.body), outcome.status))
              && r.form.purpose == st.purpose && r.form.vehicleNumber == st.vehicleNumber
    // only an accepted scan clears purpose and vehicle number
    ensures r.form.purpose != st.purpose || r.form.vehicleNumber != st.vehicleNumber ==>
              outcome.Response? && IsOkStatus(outcome.status) && r.notice.SuccessToast?
    // an accepted scan names the logged status and gate
    ensures r.request.Some? && outcome.Response? && IsOkStatus(outcome.status) && ResponseData(outcome.body) != JNull
            && LoggedText(ResponseData(outcome.body)).Some? ==>
              && r.form.purpose == "" && r.form.vehicleNumber == "" && !r.escaped
              && r.notice == SuccessToast(LoggedText(ResponseData(outcome.body)).value)
  {
    var started := StartScan(st, backendUrl, token);
    if started.request.None? then SubmitResult(started.form, None, started.notice, false)
    else
      var settled := FinishScan(started.form, outcome);
      SubmitResult(settled.form, started.request, settled.notice, settled.escaped)
  }

  /** A click on the log button: a disabled button does nothing. */
  function ClickLogButton(st: ScanForm, backendUrl: string, token: Option<string>): (r: Started)
    ensures !ButtonEnabled(st) ==> r == Started(st, None, NoNotice)
    ensures ButtonEnabled(st) ==> r == StartScan(st, backendUrl, token)
    ensures r.request.Some? ==> r.form.busy && !st.busy && HasGate(st.payload)
                                && r.request.value.body.gateId == st.payload.value.gateId
  {
    if ButtonEnabled(st) then StartScan(st, backendUrl, token)
    else Started(st, None, NoNotice)
  }

  /** While a request is in flight a further click sends nothing and changes
      nothing; once it settles, whatever the outcome, the button is enabled
      again for the same gate. */
  lemma OneRequestInFlight(st: ScanForm, backendUrl: string, token: Option<string>,
                           laterUrl: string, laterToken: Option<string>, outcome: HttpOutcome)
    requires ClickLogButton(st, backendUrl, token).request.Some?
    ensures var first := ClickLogButton(st, backendUrl, token);
            && ClickLogButton(first.form, laterUrl, laterToken) == Started(first.form, None, NoNotice)
            && ButtonEnabled(FinishScan(first.form, outcome).form)
            && FinishScan(first.form, outcome).form.payload == st.payload
  {
  }

  /** A gate QR printed on the gate page, decoded here and logged, sends the
      gate's trimmed id and trimmed location, provided the id is not blank
      and `JSON.parse` reads the text as the object it encodes. */
  lemma PrintedGateIsLogged(g: Gates.Gate, st: ScanForm, parseJson: JsonParser, parseUrl: UrlParser,
                            backendUrl: string, token: Option<string>)
    requires parseJson(Gates.QrData(g)) == Some(Gates.QrObject(g))
    requires !AllSpace(g.gateId)
    requires backendUrl != "" && !st.busy
    ensures var scanned := OnGateDecode(st, Gates.QrData(g), false, parseJson, parseUrl);
            var sent := ClickLogButton(scanned, backendUrl, token);
            && sent.request.Some?
            && sent.request.value.body.gateId == Trim(g.gateId)
            && sent.request.value.body.location == (if Trim(g.location) == "" then None else Some(Trim(g.location)))
            && sent.request.value.authorization == BearerOf(token)
  {
    Gates.QrRoundTrip(g, parseJson, parseUrl);
  }

  /** An accepted scan answered `{status: "IN", gate_id: "G2"}` reports
      "Logged IN at G2" and clears purpose and vehicle number. */
  lemma AcceptedScanScenario(st: ScanForm, backendUrl: string, token: Option<string>)
    requires backendUrl != "" && HasGate(st.payload)
    ensures var data := JObject(map["status" := JString("IN"), "gate_id" := JString("G2")]);
            var r := SubmitScan(st, backendUrl, token, Response(200, Some(data)));
            r.notice == SuccessToast("Logged IN at G2") && r.form.purpose == "" && r.form.vehicleNumber == ""
  {
    var data := JObject(map["status" := JString("IN"), "gate_id" := JString("G2")]);
    assert Show(Member(data, "status")) == Some("IN");
    assert Show(Member(data, "gate_id")) == Some("G2");
    assert "Logged " + "IN" + " at " + "G2" == "Logged IN at G2";
  }

  /** A 409 answered `{detail: "Gate inactive"}` reports that detail and
      keeps the form's fields. */
  lemma RejectedScanScenario(st: ScanForm, backendUrl: string, token: Option<string>)
    requires backendUrl != "" && HasGate(st.payload)
    ensures var r := SubmitScan(st, backendUrl, token, Response(409, Some(JObject(map["detail" := JString("Gate inactive")]))));
            r.notice == ErrorToast(JString("Gate inactive")) && r.form == st.(busy := false)
  {
  }

  /** A rejection without a detail reports the numeric status. */
  lemma RejectionWithoutDetailShowsStatus(st: ScanForm, backendUrl: string, token: Option<string>)
    requires backendUrl != "" && HasGate(st.payload)
    ensures SubmitScan(st, backendUrl, token, Response(500, None)).notice == ErrorToast(JString("Scan failed (500)"))
  {
    assert NatToString(500) == "500";
    assert FailureMessage(ResponseData(None), 500) == JString("Scan failed (500)");
  }
}
