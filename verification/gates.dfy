/** The gate management page: search over the gate list, the text encoded in
    a gate's QR code, the activation toggle, the gate-type colour table and
    the add-gate form. */
module Gates {
  import opened Wrappers
  import opened JsText
  import opened JsValue
  import opened JsonText
  import opened GateQr
  import Listing
  import Badges

  /** A gate as the backend lists it, and as the add-gate form holds it. */
  datatype Gate = Gate(
    gateId: string,
    name: string,
    location: string,
    gateType: string,
    description: string,
    isActive: bool)

  /** The search term occurs, ignoring ASCII case, in the gate's id, name or
      location. */
  predicate GateMatches(g: Gate, term: string) {
    ContainsIgnoringCase(g.gateId, term) || ContainsIgnoringCase(g.name, term)
    || ContainsIgnoringCase(g.location, term)
  }

  /** `filterGates`: everything for an empty term, otherwise the matching
      gates in their original order. */
  function FilterGates(gates: seq<Gate>, term: string): (r: seq<Gate>)
    ensures term == "" ==> r == gates
    ensures term != "" ==> forall g :: g in r <==> g in gates && GateMatches(g, term)
    ensures term != "" ==> forall g :: multiset(r)[g] == if GateMatches(g, term) then multiset(gates)[g] else 0
    ensures Listing.IsSubsequence(r, gates)
  {
    if term != "" then
      Listing.KeepIsSubsequence(gates, g => GateMatches(g, term));
      Listing.KeepCounts(gates, g => GateMatches(g, term));
      Listing.Keep(gates, g => GateMatches(g, term))
    else
      assert Listing.Embedding(seq(|gates|, k => k), gates, gates);
      gates
  }

  /** Searching the result of a search for the same term finds it all again. */
  lemma FilterGatesIdempotent(gates: seq<Gate>, term: string)
    ensures FilterGates(FilterGates(gates, term), term) == FilterGates(gates, term)
  {
    if term != "" {
      Listing.KeepIdempotent(gates, g => GateMatches(g, term));
    }
  }

  /** The text `downloadQRCode` encodes:
      `JSON.stringify({gate_id, location})`, keys in that order. */
  function QrData(g: Gate): (r: string)
    ensures |r| >= 2 && r[0] == '{' && r[|r| - 1] == '}'
  {
    "{\"gate_id\":" + QuoteJson(g.gateId) + ",\"location\":" + QuoteJson(g.location) + "}"
  }

  /** The object that text denotes. */
  function QrObject(g: Gate): JValue {
    JObject(map["gate_id" := JString(g.gateId), "location" := JString(g.location)])
  }

  /** The QR text has nothing to trim. */
  lemma QrDataIsTrimmed(g: Gate)
    ensures Trim(QrData(g)) == QrData(g)
  {
    TrimOfTrimmed(QrData(g));
  }

  /** A gate QR printed here and scanned on the gate scan screen gives back
      the gate's id and location, trimmed, provided the gate id is not
      empty and `JSON.parse` reads the text as the object it encodes. */
  lemma QrRoundTrip(g: Gate, parseJson: JsonParser, parseUrl: UrlParser)
    requires parseJson(QrData(g)) == Some(QrObject(g))
    requires g.gateId != ""
    ensures ExtractGatePayload(QrData(g), parseJson, parseUrl) == Some(GatePayload(Trim(g.gateId), Trim(g.location)))
  {
    QrDataIsTrimmed(g);
    QrObjectReadsBack(g);
    assert parseJson(Trim(QrData(g))) == Some(QrObject(g));
  }

  /** The JSON reading of the object a gate QR encodes. */
  lemma QrObjectReadsBack(g: Gate)
    requires g.gateId != ""
    ensures FromJson(Some(QrObject(g))) == Some(GatePayload(Trim(g.gateId), Trim(g.location)))
  {
    var obj := QrObject(g);
    assert JsonGateId(obj) == Some(JString(g.gateId));
    assert TrimmedOrEmpty(Member(obj, "location")) == Some(Trim(g.location)) by {
      assert Member(obj, "location") == Some(JString(g.location));
      if g.location == "" {
        assert AllSpace(g.location);
      }
    }
  }

  /** The strings inside the QR text are exactly the gate's, as section 7 of
      RFC 8259 reads them. */
  lemma QrFieldsReadBack(g: Gate)
    ensures UnescapeJson(EscapeJson(g.gateId)) == Some(g.gateId)
    ensures UnescapeJson(EscapeJson(g.location)) == Some(g.location)
  {
    EscapeRoundTrip(g.gateId);
    EscapeRoundTrip(g.location);
  }

  /** A gate whose id is white space only scans as an empty id, which the
      scan screen does not adopt: the previously scanned gate stays. */
  lemma BlankGateIdIsNotAdopted(g: Gate, parseJson: JsonParser, parseUrl: UrlParser)
    requires parseJson(QrData(g)) == Some(QrObject(g))
    requires g.gateId != "" && AllSpace(g.gateId)
    ensures ExtractGatePayload(QrData(g), parseJson, parseUrl).Some?
    ensures ExtractGatePayload(QrData(g), parseJson, parseUrl).value.gateId == ""
  {
    QrRoundTrip(g, parseJson, parseUrl);
  }

  /** `PUT /gates/{gate_id}` with `{is_active: !gate.is_active}`. */
  datatype ToggleRequest = ToggleRequest(path: string, isActive: bool)

  function ToggleActive(g: Gate): (r: ToggleRequest)
    ensures r.isActive != g.isActive
    ensures r.path == "/gates/" + g.gateId
  {
    ToggleRequest("/gates/" + g.gateId, !g.isActive)
  }

  /** The toggle asks for the opposite state; asking again from that state
      asks for the original one. */
  lemma ToggleTwiceRestores(g: Gate)
    ensures ToggleActive(g.(isActive := ToggleActive(g).isActive)) == ToggleRequest("/gates/" + g.gateId, g.isActive)
  {
  }

  /** A toast: green on success, red on failure. */
  datatype Toast = SuccessToast(text: string) | ErrorToast(text: string)

  function StateWord(active: bool): string {
    if active then "activated" else "deactivated"
  }

  /** The toast `handleToggleActive` shows once the request settles. */
  function ToggleToast(g: Gate, succeeded: bool): (t: Toast)
    ensures !succeeded ==> t == ErrorToast("Failed to update gate status")
    // the success toast names the state the request asked for
    ensures succeeded ==> t == SuccessToast("Gate " + StateWord(ToggleActive(g).isActive) + " successfully")
  {
    if succeeded then
      SuccessToast("Gate " + (if g.isActive then "deactivated" else "activated") + " successfully")
    else ErrorToast("Failed to update gate status")
  }

  /** The seven entries of `getGateTypeColor`'s table. */
  const GateTypeColors: map<string, Badges.Tint> := map[
    "Main Gate" := Badges.Red,
    "Side Gate" := Badges.Orange,
    "Laboratory" := Badges.Blue,
    "Hostel" := Badges.Green,
    "Administrative" := Badges.Purple,
    "Facility" := Badges.Yellow,
    "Parking" := Badges.Gray
  ]

  /** The names every object literal inherits from `Object.prototype`; each
      holds a function or object, so each is truthy. */
  const InheritedNames: set<string> := {
    "constructor", "hasOwnProperty", "isPrototypeOf", "propertyIsEnumerable",
    "toLocaleString", "toString", "valueOf", "__proto__", "__defineGetter__",
    "__defineSetter__", "__lookupGetter__", "__lookupSetter__"
  }

  /** What `colors[type] || default` evaluates to. */
  datatype BadgeClass = ClassName(classes: string) | InheritedMember(name: string)

  /** `getGateTypeColor` as written: a lookup on an object literal, which
      also finds the inherited `Object.prototype` members. */
  function GateTypeColorAsWritten(gateType: string): (r: BadgeClass)
    ensures gateType in GateTypeColors ==> r == ClassName(Badges.Classes(GateTypeColors[gateType]))
    ensures gateType !in GateTypeColors && gateType in InheritedNames ==> r == InheritedMember(gateType)
    ensures gateType !in GateTypeColors && gateType !in InheritedNames ==> r == ClassName(Badges.Classes(Badges.Gray))
  {
    if gateType in GateTypeColors then ClassName(Badges.Classes(GateTypeColors[gateType]))
    else if gateType in InheritedNames then InheritedMember(gateType)
    else ClassName(Badges.Classes(Badges.Gray))
  }

  /** A gate whose type is `constructor` gets the `Object` function, not a
      colour class. */
  lemma InheritedTypeGetsNoClass()
    ensures GateTypeColorAsWritten("constructor") == InheritedMember("constructor")
  {
    assert "constructor" !in GateTypeColors;
  }

  /** `getGateTypeColor` as intended: the table's colour, or gray. */
  function GateTypeTint(gateType: string): (t: Badges.Tint)
    ensures gateType in GateTypeColors ==> t == GateTypeColors[gateType]
    ensures gateType !in GateTypeColors ==> t == Badges.Gray
    ensures t in GateTypeColors.Values
  {
    assert GateTypeColors["Parking"] == Badges.Gray;
    if gateType in GateTypeColors then GateTypeColors[gateType] else Badges.Gray
  }

  function GateTypeColor(gateType: string): string {
    Badges.Classes(GateTypeTint(gateType))
  }

  /** The intended lookup agrees with the written one wherever the written
      one yields a class; the listed types other than parking each get a
      class of their own, and a parking gate looks like an unknown one. */
  lemma GateTypeColorAgrees(gateType: string)
    ensures GateTypeColorAsWritten(gateType).ClassName? ==> GateTypeColorAsWritten(gateType).classes == GateTypeColor(gateType)
    ensures GateTypeColorAsWritten(gateType).InheritedMember? <==> gateType in InheritedNames
    ensures gateType in GateTypeColors && gateType != "Parking" ==> GateTypeColor(gateType) != GateTypeColor("Parking")
    ensures GateTypeColor("Parking") == GateTypeColor("Gatehouse")
  {
    assert forall n | n in InheritedNames :: n !in GateTypeColors;
    assert "Gatehouse" !in GateTypeColors;
    Badges.ClassesInjective(GateTypeTint(gateType), Badges.Gray);
  }

  /** The add-gate form's initial value. */
  function InitialGateForm(): (r: Gate)
    ensures r.gateId == "" && r.name == "" && r.location == "" && r.description == ""
    ensures r.gateType == "Main Gate" && r.isActive
  {
    Gate("", "", "", "Main Gate", "", true)
  }

  /** `resetForm`, written out as the page writes it. */
  function ResetForm(): (r: Gate)
    ensures r == InitialGateForm()
  {
    Gate("", "", "", "Main Gate", "", true)
  }
}
