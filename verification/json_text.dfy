/** How `JSON.stringify` writes a string (QuoteJSONString in section 25.5.2
    of ECMA-262), and the string-body grammar of section 7 of RFC 8259 that
    reads it back. */
module JsonText {
  import opened Wrappers

  const HexDigits := "0123456789abcdef"

  /** A lower-case hexadecimal digit, as `JSON.stringify` emits it. */
  function HexDigit(d: nat): (c: char)
    requires d < 16
  {
    HexDigits[d]
  }

  /** The value of a hexadecimal digit of either case. */
  function HexValue(c: char): (r: Option<nat>)
    ensures r.Some? ==> r.value < 16
  {
    if '0' <= c <= '9' then Some(c as int - '0' as int)
    else if 'a' <= c <= 'f' then Some(c as int - 'a' as int + 10)
    else if 'A' <= c <= 'F' then Some(c as int - 'A' as int + 10)
    else None
  }

  lemma HexDigitValue(d: nat)
    requires d < 16
    ensures HexValue(HexDigit(d)) == Some(d)
  {
  }

  /** One code point of a string as `JSON.stringify` writes it: the
      two-character escapes for quote, backslash and the five named control
      characters, `\u00xx` for the other controls, anything else as is. */
  function EscapeChar(c: char): (r: string)
    ensures 1 <= |r| <= 6
    ensures |r| == 1 <==> r == [c]
    ensures |r| == 1 ==> c != '"' && c != '\\' && c as int >= 0x20
  {
    if c == '"' then "\\\""
    else if c == '\\' then "\\\\"
    else if c == '\U{8}' then "\\b"
    else if c == '\U{C}' then "\\f"
    else if c == '\n' then "\\n"
    else if c == '\r' then "\\r"
    else if c == '\t' then "\\t"
    else if (c as int) < 0x20 then "\\u00" + [HexDigit(c as int / 16), HexDigit(c as int % 16)]
    else [c]
  }

  /** The characters between the quotes of `JSON.stringify(s)`. */
  function EscapeJson(s: string): (r: string)
    ensures |r| >= |s|
  {
    if |s| == 0 then "" else EscapeChar(s[0]) + EscapeJson(s[1..])
  }

  /** `JSON.stringify(s)` for a string. */
  function QuoteJson(s: string): (r: string)
    ensures |r| >= 2 && r[0] == '"' && r[|r| - 1] == '"'
  {
    "\"" + EscapeJson(s) + "\""
  }

  /** The character a one-letter escape stands for. */
  function SimpleEscape(c: char): Option<char> {
    match c
    case '"' => Some('"')
    case '\\' => Some('\\')
    case '/' => Some('/')
    case 'b' => Some('\U{8}')
    case 'f' => Some('\U{C}')
    case 'n' => Some('\n')
    case 'r' => Some('\r')
    case 't' => Some('\t')
    case _ => None
  }

  /** The code point of a `\uXXXX` escape. A surrogate half would have to pair
      with a second escape; that form is rejected here. */
  function UnicodeEscape(a: char, b: char, c: char, d: char): (r: Option<char>)
  {
    match (HexValue(a), HexValue(b), HexValue(c), HexValue(d))
    case (Some(w), Some(x), Some(y), Some(z)) =>
      var n := ((w * 16 + x) * 16 + y) * 16 + z;
      if 0xD800 <= n < 0xE000 then None else Some(n as char)
    case _ => None
  }

  /** Reads the body of a JSON string literal back into its characters;
      `None` when the body is not valid (a bare quote or control character,
      or an unknown escape). */
  function UnescapeJson(s: string): (r: Option<string>)
    decreases |s|
  {
    if |s| == 0 then Some("")
    else if s[0] == '\\' then
      if |s| < 2 then None
      else if s[1] == 'u' then
        if |s| < 6 then None
        else
          match UnicodeEscape(s[2], s[3], s[4], s[5])
          case None => None
          case Some(c) =>
            match UnescapeJson(s[6..])
            case None => None
            case Some(rest) => Some([c] + rest)
      else
        match SimpleEscape(s[1])
        case None => None
        case Some(c) =>
          match UnescapeJson(s[2..])
          case None => None
          case Some(rest) => Some([c] + rest)
    else if s[0] == '"' || (s[0] as int) < 0x20 then None
    else
      match UnescapeJson(s[1..])
      case None => None
      case Some(rest) => Some([s[0]] + rest)
  }

  /** Reading back one escaped code point followed by anything readable. */
  lemma UnescapeEscapeChar(c: char, rest: string, tail: string)
    requires UnescapeJson(rest) == Some(tail)
    ensures UnescapeJson(EscapeChar(c) + rest) == Some([c] + tail)
  {
    var e := EscapeChar(c);
    var s := e + rest;
    if |e| == 1 {
      assert s[1..] == rest;
    } else if |e| == 2 {
      assert s[2..] == rest;
    } else {
      var hi, lo := c as int / 16, c as int % 16;
      HexDigitValue(hi);
      HexDigitValue(lo);
      assert s[..6] == ['\\', 'u', '0', '0', HexDigit(hi), HexDigit(lo)];
      assert s[6..] == rest;
      assert UnicodeEscape(s[2], s[3], s[4], s[5]) == Some(c);
    }
  }

  /** What `JSON.stringify` writes for a string reads back as that string. */
  lemma {:induction false} EscapeRoundTrip(s: string)
    ensures UnescapeJson(EscapeJson(s)) == Some(s)
  {
    if |s| > 0 {
      EscapeRoundTrip(s[1..]);
      UnescapeEscapeChar(s[0], EscapeJson(s[1..]), s[1..]);
      assert [s[0]] + s[1..] == s;
    }
  }
}
