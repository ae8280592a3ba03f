/** Service-worker registration: the loopback-host test and the guards that
    decide whether the worker script is fetched and registered. */
module ServiceWorker {
  import opened JsText

  function DigitValue(c: char): int {
    c as int - '0' as int
  }

  /** `25[0-5]|2[0-4][0-9]|[01]?[0-9][0-9]?`, the whole of `s`, alternative
      by alternative. */
  predicate OctetPattern(s: string) {
    || (|s| == 3 && s[0] == '2' && s[1] == '5' && '0' <= s[2] <= '5')
    || (|s| == 3 && s[0] == '2' && '0' <= s[1] <= '4' && IsAsciiDigit(s[2]))
    || (|s| == 1 && IsAsciiDigit(s[0]))
    || (|s| == 2 && IsAsciiDigit(s[0]) && IsAsciiDigit(s[1]))
    || (|s| == 3 && (s[0] == '0' || s[0] == '1') && IsAsciiDigit(s[1]) && IsAsciiDigit(s[2]))
  }

  /** The octet pattern accepts exactly one to three decimal digits whose
      value is at most 255, leading zeros included. */
  lemma OctetPatternIsByte(s: string)
    ensures OctetPattern(s) <==> 1 <= |s| <= 3 && AllDigits(s) && DigitsValue(s) <= 255
  {
    if 1 <= |s| <= 3 && AllDigits(s) {
      assert DigitsValue(s[..0]) == 0;
      assert s[..1][..0] == s[..0];
      assert DigitsValue(s[..1]) == DigitValue(s[0]);
      if |s| == 1 {
        assert s[..1] == s;
      } else {
        assert s[..2][..1] == s[..1];
        assert DigitsValue(s[..2]) == DigitValue(s[0]) * 10 + DigitValue(s[1]);
        if |s| == 2 {
          assert s[..2] == s;
        } else {
          assert s[..2] == s[..|s| - 1];
          assert DigitsValue(s) == (DigitValue(s[0]) * 10 + DigitValue(s[1])) * 10 + DigitValue(s[2]);
        }
      }
    }
  }

  /** `^127(?:\.(?:octet)){3}$`: the text after `127` is three dot-led
      groups, each matching the octet pattern (no group can hold a dot). */
  predicate LoopbackV4(host: string) {
    |host| >= 3 && host[..3] == "127" &&
    var groups := SplitOn(host[3..], '.');
    |groups| == 4 && groups[0] == ""
    && OctetPattern(groups[1]) && OctetPattern(groups[2]) && OctetPattern(groups[3])
  }

  /** `isLocalhost`. */
  predicate IsLocalhost(host: string) {
    host == "localhost" || host == "[::1]" || LoopbackV4(host)
  }

  lemma OctetHasNoDot(s: string)
    requires OctetPattern(s)
    ensures '.' !in s
  {
  }

  /** The three dot-led groups of `.a.b.c` are `a`, `b` and `c`. */
  lemma DotGroups(a: string, b: string, c: string)
    requires '.' !in a && '.' !in b && '.' !in c
    ensures SplitOn("." + (a + ("." + (b + ("." + c)))), '.') == ["", a, b, c]
  {
    var y := a + ("." + (b + ("." + c)));
    SplitOnNone(c, '.');
    SplitOnJoin(b, '.', c);
    SplitOnJoin(a, '.', b + ("." + c));
    assert SplitOn(y, '.') == [a, b, c];
    assert ("." + y)[1..] == y;
  }

  /** Any three octets after `127.` make a loopback host. */
  lemma LoopbackFromOctets(a: string, b: string, c: string)
    requires OctetPattern(a) && OctetPattern(b) && OctetPattern(c)
    ensures IsLocalhost("127" + ("." + (a + ("." + (b + ("." + c))))))
  {
    OctetHasNoDot(a);
    OctetHasNoDot(b);
    OctetHasNoDot(c);
    var tail := "." + (a + ("." + (b + ("." + c))));
    DotGroups(a, b, c);
    var host := "127" + tail;
    assert host[..3] == "127";
    assert host[3..] == tail;
  }

  /** The usual loopback address is recognised. */
  lemma LoopbackExample()
    ensures IsLocalhost("127.0.0.1")
  {
    LoopbackFromOctets("0", "0", "1");
    assert "127" + ("." + ("0" + ("." + ("0" + ("." + "1"))))) == "127.0.0.1";
  }

  /** Only the `127` block counts, and octets stop at 255. */
  lemma NotLoopbackExamples()
    ensures !IsLocalhost("128.0.0.1")
    ensures OctetPattern("255") && OctetPattern("007") && !OctetPattern("256") && !OctetPattern("1000")
  {
    assert "128.0.0.1"[..3][2] == '8';
  }

  /** The build and page facts `register` consults. */
  datatype Environment = Environment(
    nodeEnv: string,
    hasServiceWorker: bool,   // `'serviceWorker' in navigator`
    publicUrl: string,
    publicOrigin: string,     // `new URL(PUBLIC_URL, location.href).origin`
    pageOrigin: string,
    hostname: string)

  /** How fetching the worker script ended. */
  datatype Fetch = FetchFailed | Fetched(status: int)

  /** What registration did: nothing, fetched the script only, or went on
      to `navigator.serviceWorker.register(swUrl)`, whose own failure is
      swallowed. */
  datatype Registration = Skipped | FetchedOnly(swUrl: string) | Registered(swUrl: string)

  /** `registerValidSW`. */
  function RegisterValid(swUrl: string, fetch: Fetch): (r: Registration)
    ensures r.Registered? <==> fetch == Fetched(200)
    ensures r != Skipped && r.swUrl == swUrl
  {
    match fetch
    case Fetched(status) => if status != 200 then FetchedOnly(swUrl) else Registered(swUrl)
    case FetchFailed => FetchedOnly(swUrl)
  }

  /** `register`, once the page's `load` event has fired. */
  function Register(env: Environment, fetch: Fetch): (r: Registration)
    ensures r != Skipped <==> env.nodeEnv == "production" && env.hasServiceWorker && env.publicOrigin == env.pageOrigin
    ensures r.Registered? <==> r != Skipped && fetch == Fetched(200)
    ensures r != Skipped ==> r.swUrl == env.publicUrl + "/service-worker.js"
  {
    if env.nodeEnv != "production" then Skipped
    else if !env.hasServiceWorker then Skipped
    else if env.publicOrigin != env.pageOrigin then Skipped
    else
      var swUrl := env.publicUrl + "/service-worker.js";
      if IsLocalhost(env.hostname) then RegisterValid(swUrl, fetch) else RegisterValid(swUrl, fetch)
  }

  /** Being served from a loopback host changes nothing. */
  lemma HostnameIrrelevant(env: Environment, fetch: Fetch, host: string)
    ensures Register(env.(hostname := host), fetch) == Register(env, fetch)
  {
  }
}
