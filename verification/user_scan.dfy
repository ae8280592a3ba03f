/** The scanner-operated screen: staff type a gate id, the camera frames a
    member's personal QR, and the first read of each camera session is
    submitted with that member's id. Later frames are ignored until "Scan
    Next" (`Retry`) re-arms the scanner.

    A camera session's read callback is a closure: it calls the `callScan`
    of the render that started the session, so the form it submits is the
    one of that render (`ScanInputs`), not the one on screen at read time. */
module UserScan {
  import opened Wrappers
  import opened JsText
  import opened JsValue
  import opened UserQr
  import GateScan

  /** The inputs `callScan` reads from its render: the typed gate id,
      location, purpose and vehicle number, and the session token. */
  datatype ScanInputs = ScanInputs(
    gateId: string,
    location: string,
    purpose: string,
    vehicleNumber: string,
    token: Option<string>)

  /** The screen's state; `session` is what the current camera session's
      callback captured. */
  datatype UserScanState = UserScanState(
    gateId: string,
    purpose: string,
    vehicleNumber: string,
    location: string,
    lastRaw: string,
    lastUserId: string,
    status: JValue,
    busy: bool,
    error: string,
    ok: string,
    stop: bool,
    session: ScanInputs)

  /** The inputs a render of the screen sees, with the token it was given. */
  function InputsOf(st: UserScanState, token: Option<string>): ScanInputs {
    ScanInputs(st.gateId, st.location, st.purpose, st.vehicleNumber, token)
  }

  /** The first render; the camera session started on mount captures its
      empty form. */
  function InitialUserScan(token: Option<string>): (r: UserScanState)
    ensures !r.busy && !r.stop && r.error == "" && r.ok == "" && r.lastUserId == ""
    ensures r.gateId == "" && r.location == "" && r.purpose == "" && r.vehicleNumber == ""
    ensures r.session == InputsOf(r, token)
  {
    var form := UserScanState("", "", "", "", "", "", JString(""), false, "", "", false, ScanInputs("", "", "", "", None));
    form.(session := InputsOf(form, token))
  }

  /** `(REACT_APP_BACKEND_URL || '').replace(/\/$/, '')`: one trailing slash
      dropped. */
  function BackendBase(env: string): (r: string)
    ensures |env| > 0 && env[|env| - 1] == '/' ==> r + "/" == env
    ensures !(|env| > 0 && env[|env| - 1] == '/') ==> r == env
  {
    if |env| > 0 && env[|env| - 1] == '/' then env[..|env| - 1] else env
  }

  /** The JSON body posted to `/api/scan`; `None` is `null`. */
  datatype UserScanBody = UserScanBody(
    userId: string,
    gateId: string,
    location: string,
    purpose: Option<string>,
    vehicleNumber: Option<string>)

  /** The request; the authorization header is present only with a token. */
  datatype UserScanRequest = UserScanRequest(url: string, authorization: Option<string>, body: UserScanBody)

  const GateRequired := "Gate ID is required."
  const UserIdMissing := "Invalid QR content: could not extract user_id (UUID)."
  const UnparsedQr := "Scanned QR, but could not parse a valid UUID user_id."

  /** `e?.message || 'Scan failed'`. */
  function ErrorText(message: string): (r: string)
    ensures r != ""
    ensures message != "" ==> r == message
  {
    if message != "" then message else "Scan failed"
  }

  /** `(location || \`Gate ${gateId.trim()}\`).trim()`. */
  function ScanLocation(location: string, gateId: string): (r: string)
    ensures IsTrimmed(r)
    ensures location != "" ==> r == Trim(location)
    // a white-space-only typed location is sent as the empty string
    ensures location != "" && AllSpace(location) ==> r == ""
    ensures location == "" ==> r == Trim("Gate " + Trim(gateId))
  {
    Trim(if location != "" then location else "Gate " + Trim(gateId))
  }

  /** `...(token ? { Authorization: \`Bearer ${token}\` } : {})`. */
  function AuthorizationOf(token: Option<string>): (r: Option<string>)
    ensures r.Some? <==> token.Some? && token.value != ""
    ensures r.Some? ==> r.value == "Bearer " + token.value
  {
    if token.Some? && token.value != "" then Some("Bearer " + token.value) else None
  }

  /** The message V8 gives the TypeError thrown when a value cannot be
      converted to a string. */
  const ConversionFailure := "Cannot convert object to primitive value"

  /** `callScan(userId)` up to its first `await`, reading the inputs `form`
      of its render and writing the screen `st`: the messages are cleared
      and the busy flag set. A blank gate id or a missing user id throws at
      once; the error is shown and the flag released before anything is
      sent. */
  function StartCall(st: UserScanState, form: ScanInputs, userId: Option<string>, backend: string)
    : (r: (UserScanState, Option<UserScanRequest>))
    // the gate id is checked before the user id; neither failure sends anything
    ensures AllSpace(form.gateId) ==> r == (st.(busy := false, error := GateRequired, ok := ""), None)
    ensures !AllSpace(form.gateId) && (userId.None? || userId.value == "")
            ==> r == (st.(busy := false, error := UserIdMissing, ok := ""), None)
    ensures r.1.Some? <==> !AllSpace(form.gateId) && userId.Some? && userId.value != ""
    // otherwise the request is in flight and the screen is busy
    ensures r.1.Some? ==>
              && r.0 == st.(busy := true, error := "", ok := "")
              && r.1.value.url == backend + "/api/scan"
              && r.1.value.authorization == AuthorizationOf(form.token)
              && r.1.value.body.userId == userId.value
              && r.1.value.body.gateId == Trim(form.gateId) && r.1.value.body.gateId != ""
              && r.1.value.body.location == ScanLocation(form.location, form.gateId)
              && r.1.value.body.purpose == TrimmedOrNull(form.purpose)
              && r.1.value.body.vehicleNumber == TrimmedOrNull(form.vehicleNumber)
  {
    if AllSpace(form.gateId) then (st.(busy := false, error := GateRequired, ok := ""), None)
    else if userId.None? || userId.value == "" then (st.(busy := false, error := UserIdMissing, ok := ""), None)
    else
      var body := UserScanBody(userId.value, Trim(form.gateId), ScanLocation(form.location, form.gateId),
                               TrimmedOrNull(form.purpose), TrimmedOrNull(form.vehicleNumber));
      (st.(busy := true, error := "", ok := ""), Some(UserScanRequest(backend + "/api/scan", AuthorizationOf(form.token), body)))
  }

  /** `data?.status || 'OK'`. */
  function ShownStatus(data: JValue): (r: JValue)
    ensures Truthy(OptMember(Some(data), "status")) ==> r == data.props["status"]
    ensures !Truthy(OptMember(Some(data), "status")) ==> r == JString("OK")
  {
    Or(OptMember(Some(data), "status"), Str("OK")).value
  }

  /** `callScan` after `fetch` settles with `outcome`, for the id that was
      sent. Whatever is thrown is shown through `ErrorText`, and the
      `finally` block releases the busy flag. */
  function FinishCall(st: UserScanState, userId: string, outcome: GateScan.HttpOutcome): (r: UserScanState)
    ensures !r.busy
    // the form's inputs, the last read and the stop flag are never touched
    ensures r.gateId == st.gateId && r.location == st.location
            && r.purpose == st.purpose && r.vehicleNumber == st.vehicleNumber
            && r.lastRaw == st.lastRaw && r.lastUserId == st.lastUserId && r.stop == st.stop
            && r.session == st.session
    // from cleared messages, exactly one of error and success text ends up set
    ensures st.error == "" && st.ok == "" ==> (r.error == "") != (r.ok == "")
    // a failed request shows the exception's message
    ensures outcome.NetworkFailure? ==> r == st.(busy := false, error := ErrorText(outcome.message))
    // a rejection shows the detail or `Scan failed (status)` as an Error's message
    ensures outcome.Response? && !GateScan.IsOkStatus(outcome.status) ==>
              var message := ToJsString(GateScan.FailureMessage(GateScan.ResponseData(outcome.body), outcome.status));
              r == st.(busy := false, error := ErrorText(message.GetOr(ConversionFailure)))
    // an accepted scan shows the status and names it with the user in the success text
    ensures outcome.Response? && GateScan.IsOkStatus(outcome.status) ==>
              var shown := ShownStatus(GateScan.ResponseData(outcome.body));
              && r.status == shown
              && (ToJsString(shown).Some? ==>
                    r == st.(busy := false, status := shown, ok := "Logged: " + ToJsString(shown).value + " for user " + userId))
              && (ToJsString(shown).None? ==> r == st.(busy := false, status := shown, error := ConversionFailure))
  {
    var idle := st.(busy := false);
    match outcome
    case NetworkFailure(message) => idle.(error := ErrorText(message))
    case Response(status, raw) =>
      var data := GateScan.ResponseData(raw);
      if !GateScan.IsOkStatus(status) then
        idle.(error := ErrorText(ToJsString(GateScan.FailureMessage(data, status)).GetOr(ConversionFailure)))
      else
        var shown := ShownStatus(data);
        var text := ToJsString(shown);
        if text.Some? then idle.(status := shown, ok := "Logged: " + text.value + " for user " + userId)
        else idle.(status := shown, error := ConversionFailure)
  }

  /** `callScan(userId)` from call to settlement: the inputs `form` of the
      render it belongs to, the backend base and the outcome of the request
      (consulted only when one is sent). */
  function CallScan(st: UserScanState, form: ScanInputs, userId: Option<string>, backend: string,
                    outcome: GateScan.HttpOutcome): (r: (UserScanState, Option<UserScanRequest>))
    // the gate id is checked before the user id; neither failure sends anything
    ensures AllSpace(form.gateId) ==> r.1.None? && r.0.error == GateRequired
    ensures !AllSpace(form.gateId) && (userId.None? || userId.value == "") ==> r.1.None? && r.0.error == UserIdMissing
    ensures r.1.Some? <==> !AllSpace(form.gateId) && userId.Some? && userId.value != ""
    // the request
    ensures r.1.Some? ==>
              && r.1.value.url == backend + "/api/scan"
              && r.1.value.body.userId == userId.value
              && r.1.value.body.gateId == Trim(form.gateId) && r.1.value.body.gateId != ""
              && r.1.value.body.location == ScanLocation(form.location, form.gateId)
              && r.1.value.body.purpose == TrimmedOrNull(form.purpose)
              && r.1.value.body.vehicleNumber == TrimmedOrNull(form.vehicleNumber)
              && (r.1.value.authorization.Some? <==> form.token.Some? && form.token.value != "")
              && (r.1.value.authorization.Some? ==> r.1.value.authorization.value == "Bearer " + form.token.value)
    // busy always ends false; exactly one of error and ok is set
    ensures !r.0.busy
    ensures (r.0.error == "") != (r.0.ok == "")
    // the typed inputs on screen are never touched
    ensures r.0.gateId == st.gateId && r.0.location == st.location
            && r.0.purpose == st.purpose && r.0.vehicleNumber == st.vehicleNumber
    // nor are the last read, the stop flag and the captured session
    ensures r.0.lastRaw == st.lastRaw && r.0.lastUserId == st.lastUserId && r.0.stop == st.stop
            && r.0.session == st.session
    // a failed request shows its message, and a rejection the server's string detail
    ensures r.1.Some? && outcome.NetworkFailure? ==> r.0.error == ErrorText(outcome.message)
    ensures r.1.Some? && outcome.Response? && !GateScan.IsOkStatus(outcome.status) ==>
              var message := ToJsString(GateScan.FailureMessage(GateScan.ResponseData(outcome.body), outcome.status));
              r.0.error == ErrorText(message.GetOr(ConversionFailure)) && r.0.ok == ""
    // an accepted scan records the status and reports it with the user's id
    ensures r.1.Some? && outcome.Response? && GateScan.IsOkStatus(outcome.status) ==>
              var shown := ShownStatus(GateScan.ResponseData(outcome.body));
              && r.0.status == shown
              && (ToJsString(shown).Some? ==> r.0.ok == "Logged: " + ToJsString(shown).value + " for user " + userId.value)
              && (ToJsString(shown).None? ==> r.0.error == ConversionFailure)
  {
    var started := StartCall(st, form, userId, backend);
    if started.1.None? then started
    else (FinishCall(started.0, userId.value, outcome), started.1)
  }

  /** A rejection whose body carries a non-empty string `detail` shows
      exactly that text. */
  lemma RejectionShowsDetail(st: UserScanState, form: ScanInputs, userId: string, backend: string,
                             status: nat, data: map<string, JValue>, detail: string)
    requires !AllSpace(form.gateId) && userId != ""
    requires !GateScan.IsOkStatus(status)
    requires "detail" in data && data["detail"] == JString(detail) && detail != ""
    ensures CallScan(st, form, Some(userId), backend, GateScan.Response(status, Some(JObject(data)))).0.error == detail
  {
    assert GateScan.FailureMessage(JObject(data), status) == JString(detail);
  }

  /** One camera read. The first read of a session sets the stop flag,
      records the raw text and the parsed id, and hands a found id on for
      submission; a later read changes nothing. */
  function OnUserDecode(st: UserScanState, decoded: string, parseJson: JsonParser, parseUrl: UrlParser)
    : (r: (UserScanState, Option<string>))
    ensures st.stop ==> r == (st, None)
    ensures r.0.stop && r.0.session == st.session && r.0.gateId == st.gateId
    ensures !st.stop ==> r.0.lastRaw == decoded && r.1 == ExtractUserId(decoded, parseJson, parseUrl)
    ensures r.1.Some? ==> UuidShape(r.1.value) && r.0.lastUserId == r.1.value
    ensures !st.stop && r.1.None? ==> r.0.lastUserId == "" && r.0.error == UnparsedQr
  {
    if st.stop then (st, None)
    else
      var uid := ExtractUserId(decoded, parseJson, parseUrl);
      var next := st.(stop := true, lastRaw := decoded, lastUserId := uid.GetOr(""));
      if uid.Some? then (next, uid) else (next.(error := UnparsedQr), None)
  }

  /** "Scan Next", clicked with session token `token`. The button is
      disabled while a submission is in flight. Otherwise it clears the
      messages and the last read, re-arms the scanner, and starts a camera
      session whose callback captures the form as it is at the click; the
      typed gate, location, purpose and vehicle stay. */
  function Retry(st: UserScanState, token: Option<string>): (r: UserScanState)
    ensures st.busy ==> r == st
    ensures !st.busy ==> !r.stop && r.error == "" && r.ok == "" && r.lastRaw == "" && r.lastUserId == ""
                         && r.session == InputsOf(st, token)
    ensures r.gateId == st.gateId && r.location == st.location
            && r.purpose == st.purpose && r.vehicleNumber == st.vehicleNumber && r.busy == st.busy
  {
    if st.busy then st
    else st.(error := "", ok := "", status := JString(""), lastRaw := "", lastUserId := "", stop := false,
             session := InputsOf(st, token))
  }

  /** A run of camera reads: the final state and the ids handed on for
      submission, in order. */
  function DecodeRun(st: UserScanState, frames: seq<string>, parseJson: JsonParser, parseUrl: UrlParser)
    : (r: (UserScanState, seq<string>))
    decreases |frames|
  {
    if |frames| == 0 then (st, [])
    else
      var step := OnUserDecode(st, frames[0], parseJson, parseUrl);
      var rest := DecodeRun(step.0, frames[1..], parseJson, parseUrl);
      (rest.0, (if step.1.Some? then [step.1.value] else []) + rest.1)
  }

  /** Once the stop flag is set, any run of reads is ignored entirely. */
  lemma {:induction false} StoppedRunIgnored(st: UserScanState, frames: seq<string>, parseJson: JsonParser, parseUrl: UrlParser)
    requires st.stop
    ensures DecodeRun(st, frames, parseJson, parseUrl) == (st, [])
    decreases |frames|
  {
    if |frames| > 0 {
      var step := OnUserDecode(st, frames[0], parseJson, parseUrl);
      assert step == (st, None);
      StoppedRunIgnored(st, frames[1..], parseJson, parseUrl);
      var rest := DecodeRun(step.0, frames[1..], parseJson, parseUrl);
      assert rest == (st, []);
      assert DecodeRun(st, frames, parseJson, parseUrl) == (rest.0, [] + rest.1);
      assert [] + rest.1 == rest.1;
      assert DecodeRun(st, frames, parseJson, parseUrl).0 == st;
      assert DecodeRun(st, frames, parseJson, parseUrl).1 == [];
    }
  }

  /** A camera session submits at most one id, and only its first read can
      supply it. */
  lemma {:induction false} AtMostOneSubmissionPerSession(st: UserScanState, frames: seq<string>, parseJson: JsonParser, parseUrl: UrlParser)
    ensures |DecodeRun(st, frames, parseJson, parseUrl).1| <= 1
    ensures |frames| > 0 && !st.stop ==>
              DecodeRun(st, frames, parseJson, parseUrl).1
              == (var first := ExtractUserId(frames[0], parseJson, parseUrl); if first.Some? then [first.value] else [])
  {
    if |frames| > 0 {
      var step := OnUserDecode(st, frames[0], parseJson, parseUrl);
      StoppedRunIgnored(step.0, frames[1..], parseJson, parseUrl);
    }
  }

  /** The read callback as written: one camera read, then, when it yields
      an id, the `callScan` of the render that started the session, with
      that render's inputs. */
  function ReadAndSubmit(st: UserScanState, decoded: string, parseJson: JsonParser, parseUrl: UrlParser,
                         backend: string, outcome: GateScan.HttpOutcome): (r: (UserScanState, Option<UserScanRequest>))
    ensures st.stop ==> r == (st, None)
    ensures r.1.Some? <==> !st.stop && ExtractUserId(decoded, parseJson, parseUrl).Some? && !AllSpace(st.session.gateId)
    // the request carries the read id and the captured form, never the one on screen
    ensures r.1.Some? ==>
              && r.1.value.body.userId == ExtractUserId(decoded, parseJson, parseUrl).value
              && r.1.value.body.gateId == Trim(st.session.gateId)
              && r.1.value.body.location == ScanLocation(st.session.location, st.session.gateId)
              && r.1.value.body.purpose == TrimmedOrNull(st.session.purpose)
              && r.1.value.body.vehicleNumber == TrimmedOrNull(st.session.vehicleNumber)
              && r.1.value.authorization == AuthorizationOf(st.session.token)
              && r.0.lastUserId == r.1.value.body.userId
    ensures !st.stop && ExtractUserId(decoded, parseJson, parseUrl).Some? && AllSpace(st.session.gateId)
            ==> r.0.error == GateRequired
    ensures r.0.gateId == st.gateId && r.0.session == st.session
  {
    var read := OnUserDecode(st, decoded, parseJson, parseUrl);
    if read.1.Some? then CallScan(read.0, read.0.session, read.1, backend, outcome) else (read.0, None)
  }

  /** The camera session started on mount captured the empty form, so its
      read never sends anything: whatever gate id has been typed since, a
      read that yields an id is reported as a missing gate id. */
  lemma MountSessionNeverSends(st: UserScanState, token: Option<string>, decoded: string,
                               parseJson: JsonParser, parseUrl: UrlParser,
                               backend: string, outcome: GateScan.HttpOutcome)
    requires st.session == InitialUserScan(token).session
    ensures ReadAndSubmit(st, decoded, parseJson, parseUrl, backend, outcome).1.None?
    ensures !st.stop && ExtractUserId(decoded, parseJson, parseUrl).Some?
            ==> ReadAndSubmit(st, decoded, parseJson, parseUrl, backend, outcome).0.error == GateRequired
  {
    assert AllSpace(st.session.gateId);
  }

  /** The read callback as evidently intended: the id read is submitted with
      the form on screen at read time and the current session token. */
  function ReadAndSubmitLive(st: UserScanState, decoded: string, parseJson: JsonParser, parseUrl: UrlParser,
                             backend: string, token: Option<string>, outcome: GateScan.HttpOutcome)
    : (r: (UserScanState, Option<UserScanRequest>))
    ensures st.stop ==> r == (st, None)
    ensures r.1.Some? <==> !st.stop && ExtractUserId(decoded, parseJson, parseUrl).Some? && !AllSpace(st.gateId)
    ensures r.1.Some? ==>
              && r.1.value.body.gateId == Trim(st.gateId)
              && r.1.value.body.location == ScanLocation(st.location, st.gateId)
              && r.1.value.authorization == AuthorizationOf(token)
    ensures r.0.gateId == st.gateId
  {
    var read := OnUserDecode(st, decoded, parseJson, parseUrl);
    if read.1.Some? then CallScan(read.0, InputsOf(read.0, token), read.1, backend, outcome) else (read.0, None)
  }

  /** Intended behaviour: a first read that yields an id, with a gate id
      typed, is submitted with exactly that id and the typed gate, and the
      screen shows the same id. */
  lemma LiveReadIsSubmitted(st: UserScanState, decoded: string, parseJson: JsonParser, parseUrl: UrlParser,
                            backend: string, token: Option<string>, outcome: GateScan.HttpOutcome)
    requires !st.stop && !AllSpace(st.gateId)
    requires ExtractUserId(decoded, parseJson, parseUrl).Some?
    ensures var call := ReadAndSubmitLive(st, decoded, parseJson, parseUrl, backend, token, outcome);
            && call.1.Some?
            && call.1.value.body.userId == ExtractUserId(decoded, parseJson, parseUrl).value
            && call.1.value.body.gateId == Trim(st.gateId)
            && call.0.lastUserId == call.1.value.body.userId
  {
  }

  /** The two callbacks agree on any session whose captured form is the one
      on screen: the difference lies only in the capture. */
  lemma LiveAgreesWhenFormUnchanged(st: UserScanState, decoded: string, parseJson: JsonParser, parseUrl: UrlParser,
                                    backend: string, token: Option<string>, outcome: GateScan.HttpOutcome)
    requires st.session == InputsOf(st, token)
    ensures ReadAndSubmit(st, decoded, parseJson, parseUrl, backend, outcome)
            == ReadAndSubmitLive(st, decoded, parseJson, parseUrl, backend, token, outcome)
  {
    var read := OnUserDecode(st, decoded, parseJson, parseUrl);
    if read.1.Some? {
      assert read.0.session == InputsOf(read.0, token);
    }
  }

  /** As written: a first read that yields an id, in a session that captured
      a gate id, is submitted with exactly that id and the captured gate, and
      the screen shows the same id. */
  lemma ReadIsSubmitted(st: UserScanState, decoded: string, parseJson: JsonParser, parseUrl: UrlParser,
                        backend: string, outcome: GateScan.HttpOutcome)
    requires !st.stop && !AllSpace(st.session.gateId)
    requires ExtractUserId(decoded, parseJson, parseUrl).Some?
    ensures var call := ReadAndSubmit(st, decoded, parseJson, parseUrl, backend, outcome);
            && call.1.Some?
            && call.1.value.body.userId == ExtractUserId(decoded, parseJson, parseUrl).value
            && call.1.value.body.gateId == Trim(st.session.gateId)
            && call.0.lastUserId == call.1.value.body.userId
  {
  }

  /** After "Scan Next" on an idle screen, the following camera session
      submits the id of its first read, if that read has one, and nothing
      else; it is sent with the gate id typed at the click. */
  lemma RetryRearms(st: UserScanState, token: Option<string>, frames: seq<string>, parseJson: JsonParser, parseUrl: UrlParser,
                    backend: string, outcome: GateScan.HttpOutcome)
    requires !st.busy && |frames| > 0
    ensures DecodeRun(Retry(st, token), frames, parseJson, parseUrl).1
            == (var first := ExtractUserId(frames[0], parseJson, parseUrl); if first.Some? then [first.value] else [])
    ensures ExtractUserId(frames[0], parseJson, parseUrl).Some? && !AllSpace(st.gateId) ==>
              var call := ReadAndSubmit(Retry(st, token), frames[0], parseJson, parseUrl, backend, outcome);
              call.1.Some? && call.1.value.body.gateId == Trim(st.gateId)
  {
    AtMostOneSubmissionPerSession(Retry(st, token), frames, parseJson, parseUrl);
  }
}
