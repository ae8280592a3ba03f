/** Reading a gate reference out of the text of a scanned gate QR code. Three
    interpretations are tried in a fixed order and the first that yields a
    truthy identifier wins: a JSON object, a URL query string, and finally the
    whole text as a plain token of 2 to 64 UTF-16 code units. */
module GateQr {
  import opened Wrappers
  import opened JsText
  import opened JsValue

  /** What the scan screen keeps of a gate QR. Both fields are trimmed; the
      identifier is empty only when a JSON or URL code carried a
      white-space-only one. */
  datatype GatePayload = GatePayload(gateId: string, location: string)

  /** Shortest and longest plain token, in UTF-16 code units. */
  const MinTokenLength := 2
  const MaxTokenLength := 64

  /** `obj.gate_id || obj.gateId || obj.id`. */
  function JsonGateId(obj: JValue): Slot
    requires obj != JNull
  {
    Or(Or(Member(obj, "gate_id"), Member(obj, "gateId")), Member(obj, "id"))
  }

  /** `v ? String(v).trim() : ''`; `None` when the conversion throws. */
  function TrimmedOrEmpty(v: Slot): (r: Option<string>)
    ensures r.None? <==> Truthy(v) && !Convertible(v.value)
    ensures r.Some? ==> IsTrimmed(r.value)
    ensures !Truthy(v) ==> r == Some("")
    ensures Truthy(v) && Convertible(v.value) ==> r == Some(Trim(ToJsString(v.value).value))
    ensures Truthy(v) && v.value.JString? ==> r == Some(Trim(v.value.str))
  {
    if !Truthy(v) then Some("")
    else
      var s := ToJsString(v.value);
      if s.Some? then Some(Trim(s.value)) else None
  }

  /** The JSON interpretation. A parse failure, `null` (whose property read
      throws), a value without a truthy identifier and an identifier or
      location whose conversion to a string throws all yield `None`, which
      the caller treats as "does not apply". */
  function FromJson(parsed: Option<JValue>): (r: Option<GatePayload>)
    ensures r.Some? <==> && parsed.Some? && parsed.value != JNull && Truthy(JsonGateId(parsed.value))
                         && Convertible(JsonGateId(parsed.value).value)
                         && TrimmedOrEmpty(Member(parsed.value, "location")).Some?
    ensures r.Some? ==> r.value.gateId == Trim(ToJsString(JsonGateId(parsed.value).value).value)
    ensures r.Some? ==> Some(r.value.location) == TrimmedOrEmpty(Member(parsed.value, "location"))
  {
    match parsed
    case None => None
    case Some(JNull) => None
    case Some(obj) =>
      var id := JsonGateId(obj);
      if !Truthy(id) then None
      else
        var gate := ToJsString(id.value);
        var location := TrimmedOrEmpty(Member(obj, "location"));
        if gate.Some? && location.Some? then Some(GatePayload(Trim(gate.value), location.value)) else None
  }

  /** `get('gate_id') || get('gateId') || get('id')` on the query. */
  function UrlGateId(q: Query): Slot {
    Or(Or(Param(q, "gate_id"), Param(q, "gateId")), Param(q, "id"))
  }

  /** The URL interpretation: the first non-empty identifier parameter,
      trimmed, and the trimmed `location` parameter or `""`. */
  function FromUrl(parsed: Option<Query>): (r: Option<GatePayload>)
    ensures r.Some? <==> parsed.Some? && Truthy(UrlGateId(parsed.value))
    ensures r.Some? ==> r.value.gateId == Trim(UrlGateId(parsed.value).value.str)
    ensures r.Some? ==> Some(r.value.location) == TrimmedOrEmpty(Param(parsed.value, "location"))
  {
    match parsed
    case None => None
    case Some(q) =>
      var id := UrlGateId(q);
      if Truthy(id) then
        var loc := Or(Param(q, "location"), Str("")).value;
        Some(GatePayload(Trim(id.value.str), Trim(loc.str)))
      else None
  }

  /** The plain-token interpretation of already trimmed text. */
  function FromPlain(text: string): (r: Option<GatePayload>)
    ensures r.Some? <==> MinTokenLength <= Utf16Length(text) <= MaxTokenLength
    ensures r.Some? ==> r.value == GatePayload(text, "")
  {
    if MinTokenLength <= Utf16Length(text) <= MaxTokenLength then Some(GatePayload(text, "")) else None
  }

  /** `extractGatePayload(raw)` with the two parsers as oracles. */
  function ExtractGatePayload(raw: string, parseJson: JsonParser, parseUrl: UrlParser): (r: Option<GatePayload>)
    // a falsy input yields null
    ensures raw == "" ==> r.None?
    // every payload is trimmed on both fields
    ensures r.Some? ==> IsTrimmed(r.value.gateId) && IsTrimmed(r.value.location)
    // JSON before URL before plain token, each applying only when it finds an identifier
    ensures raw != "" && FromJson(parseJson(Trim(raw))).Some? ==> r == FromJson(parseJson(Trim(raw)))
    ensures raw != "" && FromJson(parseJson(Trim(raw))).None? && FromUrl(parseUrl(Trim(raw))).Some?
            ==> r == FromUrl(parseUrl(Trim(raw)))
    ensures FromJson(parseJson(Trim(raw))).None? && FromUrl(parseUrl(Trim(raw))).None?
            ==> (r.Some? <==> MinTokenLength <= Utf16Length(Trim(raw)) <= MaxTokenLength)
                && (r.Some? ==> r.value == GatePayload(Trim(raw), ""))
    // an empty identifier can only come from the JSON or the URL interpretation
    ensures r.Some? && r.value.gateId == ""
            ==> FromJson(parseJson(Trim(raw))).Some? || FromUrl(parseUrl(Trim(raw))).Some?
  {
    if raw == "" then None
    else
      var text := Trim(raw);
      var json := FromJson(parseJson(text));
      if json.Some? then json
      else
        var url := FromUrl(parseUrl(text));
        if url.Some? then url
        else
          if FromPlain(text).Some? then
            assert Utf16Length(text) >= 2;
            FromPlain(text)
          else None
  }

  /** A JSON object whose `gate_id` member is a non-empty string is read
      through that member, whatever the URL parser or the text length says,
      unless its `location` member is an object whose conversion throws: the
      JSON reading then does not apply and the URL reading or the plain
      token is used instead. */
  lemma JsonGateIdWins(raw: string, parseJson: JsonParser, parseUrl: UrlParser, m: map<string, JValue>, g: string)
    requires raw != ""
    requires parseJson(Trim(raw)) == Some(JObject(m))
    requires "gate_id" in m && m["gate_id"] == JString(g) && g != ""
    ensures var location := TrimmedOrEmpty(if "location" in m then Some(m["location"]) else None);
            && (location.Some? ==> ExtractGatePayload(raw, parseJson, parseUrl) == Some(GatePayload(Trim(g), location.value)))
            && (location.None? ==> ExtractGatePayload(raw, parseJson, parseUrl)
                                   == if FromUrl(parseUrl(Trim(raw))).Some? then FromUrl(parseUrl(Trim(raw))) else FromPlain(Trim(raw)))
  {
  }

  /** A JSON object with a string `gate_id` whose `location` member is an
      object with its own `toString` member (as in
      `{"gate_id":"G1","location":{"toString":0}}`) is not read as JSON:
      converting the location throws, and text that is not a URL either is
      taken whole as a plain token. */
  lemma ThrowingLocationFallsThrough(raw: string, parseJson: JsonParser, parseUrl: UrlParser,
                                     m: map<string, JValue>, g: string, inner: map<string, JValue>)
    requires raw != ""
    requires parseJson(Trim(raw)) == Some(JObject(m))
    requires "gate_id" in m && m["gate_id"] == JString(g) && g != ""
    requires "location" in m && m["location"] == JObject(inner) && "toString" in inner
    requires parseUrl(Trim(raw)).None?
    requires MinTokenLength <= Utf16Length(Trim(raw)) <= MaxTokenLength
    ensures ExtractGatePayload(raw, parseJson, parseUrl) == Some(GatePayload(Trim(raw), ""))
  {
    assert FromJson(parseJson(Trim(raw))).None?;
  }

  /** When the text is not a JSON object with an identifier but is a URL
      with a non-empty `gate_id` parameter, the URL reading is used and the
      plain-token reading never is, whatever the length. */
  lemma UrlGateIdBeatsPlainToken(raw: string, parseJson: JsonParser, parseUrl: UrlParser, q: Query, g: string)
    requires raw != ""
    requires FromJson(parseJson(Trim(raw))).None?
    requires parseUrl(Trim(raw)) == Some(q)
    requires Param(q, "gate_id") == Some(JString(g)) && g != ""
    ensures ExtractGatePayload(raw, parseJson, parseUrl) == Some(GatePayload(Trim(g), TrimmedOrEmpty(Param(q, "location")).value))
  {
    var loc := Param(q, "location");
    if !Truthy(loc) {
      TrimOfTrimmed("");
    }
  }

  /** A white-space-only identifier is truthy, so the JSON reading applies
      and returns an empty `gate_id` instead of falling through. */
  lemma BlankJsonIdGivesEmptyGate(raw: string, parseJson: JsonParser, parseUrl: UrlParser, blank: string)
    requires raw != "" && blank != "" && AllSpace(blank)
    requires parseJson(Trim(raw)) == Some(JObject(map["gate_id" := JString(blank)]))
    ensures ExtractGatePayload(raw, parseJson, parseUrl) == Some(GatePayload("", ""))
  {
  }

  /** Text that neither parser reads as carrying an identifier is rejected
      when it is shorter than 2 or longer than 64 code units. */
  lemma NoInterpretationOutsideTokenLengths(raw: string, parseJson: JsonParser, parseUrl: UrlParser)
    requires FromJson(parseJson(Trim(raw))).None? && FromUrl(parseUrl(Trim(raw))).None?
    requires Utf16Length(Trim(raw)) < MinTokenLength || Utf16Length(Trim(raw)) > MaxTokenLength
    ensures ExtractGatePayload(raw, parseJson, parseUrl).None?
  {
  }
}
