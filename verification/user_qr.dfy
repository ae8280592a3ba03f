/** Reading a user id out of the text of a scanned personal QR code: the
    leftmost word-bounded, case-insensitive 8-4-4-4-12 hexadecimal UUID in
    the text, else one inside the `user_id`/`uid` URL parameter, else one
    inside the `user_id`/`uid`/`id` member of a JSON object. */
module UserQr {
  import opened Wrappers
  import opened JsText
  import opened JsValue

  const UuidLength := 36

  /** `[0-9a-f]` under the `i` flag. */
  predicate IsHex(c: char) {
    ('0' <= c <= '9') || ('a' <= c <= 'f') || ('A' <= c <= 'F')
  }

  /** `\w` without the `u` flag. */
  predicate IsWordChar(c: char) {
    ('0' <= c <= '9') || ('a' <= c <= 'z') || ('A' <= c <= 'Z') || c == '_'
  }

  predicate IsDashOffset(k: int) {
    k == 8 || k == 13 || k == 18 || k == 23
  }

  /** Five groups of 8, 4, 4, 4 and 12 hex digits joined by `-`. */
  predicate UuidShape(u: string) {
    |u| == UuidLength
    && forall k | 0 <= k < UuidLength :: if IsDashOffset(k) then u[k] == '-' else IsHex(u[k])
  }

  /** Word character at offset `p`; positions outside the text are not. */
  predicate WordAt(t: string, p: int) {
    0 <= p < |t| && IsWordChar(t[p])
  }

  /** `\b` at position `p`: a word character on exactly one side. */
  predicate WordBoundary(t: string, p: int) {
    WordAt(t, p - 1) != WordAt(t, p)
  }

  /** The UUID pattern, `\b` included, matches at offset `i` of `t`. */
  predicate UuidAt(t: string, i: int) {
    0 <= i && i + UuidLength <= |t|
    && UuidShape(t[i..i + UuidLength])
    && WordBoundary(t, i) && WordBoundary(t, i + UuidLength)
  }

  /** The leftmost match offset at or after `from`. */
  function FindUuidFrom(t: string, from: nat): (r: Option<nat>)
    requires from <= |t|
    ensures r.Some? ==> from <= r.value && UuidAt(t, r.value)
    ensures r.Some? ==> forall j | from <= j < r.value :: !UuidAt(t, j)
    ensures r.None? ==> forall j | from <= j <= |t| :: !UuidAt(t, j)
    decreases |t| - from
  {
    if from + UuidLength > |t| then None
    else if UuidAt(t, from) then Some(from)
    else FindUuidFrom(t, from + 1)
  }

  /** `t.match(uuidRe)?.[0]`: the leftmost matching substring, casing kept. */
  function MatchUuid(t: string): (r: Option<string>)
    ensures r.None? <==> forall j | 0 <= j <= |t| :: !UuidAt(t, j)
    ensures r.Some? ==> UuidShape(r.value)
    ensures r.Some? ==> exists i :: UuidAt(t, i) && r.value == t[i..i + UuidLength]
                                    && forall j | 0 <= j < i :: !UuidAt(t, j)
  {
    match FindUuidFrom(t, 0)
    case None => None
    case Some(i) => Some(t[i..i + UuidLength])
  }

  /** `obj.user_id || obj.uid || obj.id`. */
  function JsonUserId(obj: JValue): Slot
    requires obj != JNull
  {
    Or(Or(Member(obj, "user_id"), Member(obj, "uid")), Member(obj, "id"))
  }

  /** The URL interpretation: `get('user_id') || get('uid')`, kept only when
      it holds a UUID, and then the leftmost one in it. */
  function FromUrl(parsed: Option<Query>): (r: Option<string>)
    ensures r.Some? ==> UuidShape(r.value)
    ensures r.Some? <==> parsed.Some? && var p := Or(Param(parsed.value, "user_id"), Param(parsed.value, "uid"));
                          Truthy(p) && MatchUuid(p.value.str).Some?
    ensures r.Some? ==> r == MatchUuid(Or(Param(parsed.value, "user_id"), Param(parsed.value, "uid")).value.str)
  {
    match parsed
    case None => None
    case Some(q) =>
      var p := Or(Param(q, "user_id"), Param(q, "uid"));
      if Truthy(p) then MatchUuid(p.value.str) else None
  }

  /** The JSON interpretation: the first truthy of `user_id`, `uid`, `id`,
      converted to a string and kept only when it holds a UUID, and then the
      leftmost one in it. A conversion that throws yields `None`. */
  function FromJson(parsed: Option<JValue>): (r: Option<string>)
    ensures r.Some? ==> UuidShape(r.value)
    ensures r.Some? <==> && parsed.Some? && parsed.value != JNull && Truthy(JsonUserId(parsed.value))
                         && Convertible(JsonUserId(parsed.value).value)
                         && MatchUuid(ToJsString(JsonUserId(parsed.value).value).value).Some?
    ensures r.Some? ==> r == MatchUuid(ToJsString(JsonUserId(parsed.value).value).value)
  {
    match parsed
    case None => None
    case Some(JNull) => None
    case Some(obj) =>
      var p := JsonUserId(obj);
      if !Truthy(p) then None
      else
        var s := ToJsString(p.value);
        if s.Some? then MatchUuid(s.value) else None
  }

  /** `extractUserId(raw)` with the two parsers as oracles. */
  function ExtractUserId(raw: string, parseJson: JsonParser, parseUrl: UrlParser): (r: Option<string>)
    ensures raw == "" ==> r.None?
    // whatever branch produced it, the id has the UUID shape
    ensures r.Some? ==> UuidShape(r.value)
    // a UUID in the text itself wins: the leftmost one, casing kept
    ensures raw != "" && MatchUuid(Trim(raw)).Some? ==> r == MatchUuid(Trim(raw))
    // otherwise the URL reading, then the JSON reading
    ensures raw != "" && MatchUuid(Trim(raw)).None? && FromUrl(parseUrl(Trim(raw))).Some? ==> r == FromUrl(parseUrl(Trim(raw)))
    ensures MatchUuid(Trim(raw)).None? && FromUrl(parseUrl(Trim(raw))).None? ==> r == FromJson(parseJson(Trim(raw))) || raw == ""
  {
    if raw == "" then None
    else
      var text := Trim(raw);
      var direct := MatchUuid(text);
      if direct.Some? then direct
      else
        var viaUrl := FromUrl(parseUrl(text));
        if viaUrl.Some? then viaUrl
        else FromJson(parseJson(text))
  }

  /** A UUID embedded in longer text is found when it stands between
      non-word characters: the text's own leftmost match is the result, and
      no URL or JSON reading is consulted. */
  lemma EmbeddedUuidFound(raw: string, parseJson: JsonParser, parseUrl: UrlParser, i: nat)
    requires raw != "" && UuidAt(Trim(raw), i)
    ensures MatchUuid(Trim(raw)).Some?
    ensures ExtractUserId(raw, parseJson, parseUrl) == MatchUuid(Trim(raw))
  {
  }

  /** A JSON identifier whose conversion to a string throws (an object with
      its own `toString` member, or an array holding one) gives no id when
      neither the text nor the URL reading found one. */
  lemma ThrowingJsonIdGivesNull(raw: string, parseJson: JsonParser, parseUrl: UrlParser, obj: JValue)
    requires raw != "" && MatchUuid(Trim(raw)).None? && FromUrl(parseUrl(Trim(raw))).None?
    requires parseJson(Trim(raw)) == Some(obj) && obj != JNull
    requires Truthy(JsonUserId(obj)) && !Convertible(JsonUserId(obj).value)
    ensures ExtractUserId(raw, parseJson, parseUrl).None?
  {
  }

  /** Hex digits glued to a word character on either side do not match. */
  lemma GluedUuidRejected(t: string, i: nat)
    requires i + UuidLength <= |t|
    requires (i > 0 && IsWordChar(t[i - 1])) || (i + UuidLength < |t| && IsWordChar(t[i + UuidLength]))
    ensures !UuidAt(t, i)
  {
  }
}
