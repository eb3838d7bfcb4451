/** The OAuth callback of src/app/auth/callback/route.ts: where to go after
    sign-in, and the three outcomes of the callback. The code exchange is a
    parameter that answers with the error message, if any. The same `next`
    rule appears in src/components/login-card.tsx:14-20 and is modelled
    once, here. Redirect targets are the relative references handed to
    `new URL(target, request.url)`. */
module AuthCallback {
  import opened Wrappers
  import opened Text

  // ---------------------------------------------------------------------------
  // encodeURIComponent
  // ---------------------------------------------------------------------------

  /** The characters `encodeURIComponent` leaves alone. */
  predicate Unreserved(c: char) {
    || ('A' <= c <= 'Z') || ('a' <= c <= 'z') || ('0' <= c <= '9')
    || c == '-' || c == '_' || c == '.' || c == '!' || c == '~' || c == '*'
    || c == '\'' || c == '(' || c == ')'
  }

  /** The UTF-8 encoding of one Unicode scalar value. */
  function Utf8(c: char): (r: seq<nat>)
    ensures 1 <= |r| <= 4
    ensures forall k :: 0 <= k < |r| ==> r[k] < 256
    ensures (c as int) < 0x80 ==> r == [c as int]
  {
    var n := c as int;
    if n < 0x80 then [n]
    else if n < 0x800 then [0xC0 + n / 64, 0x80 + n % 64]
    else if n < 0x10000 then [0xE0 + n / 4096, 0x80 + (n / 64) % 64, 0x80 + n % 64]
    else [0xF0 + n / 262144, 0x80 + (n / 4096) % 64, 0x80 + (n / 64) % 64, 0x80 + n % 64]
  }

  function Utf8String(s: string): seq<nat> {
    if s == [] then [] else Utf8(s[0]) + Utf8String(s[1..])
  }

  /** An upper-case hex digit. */
  function HexDigit(d: nat): char
    requires d < 16
  {
    if d < 10 then ('0' as int + d) as char else ('A' as int + d - 10) as char
  }

  /** `%` and the byte's two upper-case hex digits. */
  function Escape(b: nat): (r: string)
    requires b < 256
    ensures |r| == 3
  {
    ['%', HexDigit(b / 16), HexDigit(b % 16)]
  }

  /** The escapes of the bytes, in order. */
  function PercentBytes(bytes: seq<nat>): (r: string)
    requires forall k :: 0 <= k < |bytes| ==> bytes[k] < 256
    ensures |r| == 3 * |bytes|
  {
    if bytes == [] then []
    else Escape(bytes[0]) + PercentBytes(bytes[1..])
  }

  function EncodeChar(c: char): string {
    if Unreserved(c) then [c] else PercentBytes(Utf8(c))
  }

  /** `encodeURIComponent`. */
  function EncodeUriComponent(s: string): string {
    if s == [] then [] else EncodeChar(s[0]) + EncodeUriComponent(s[1..])
  }

  /** What an encoded text may hold: unreserved characters and `%`; so no
      `&`, `=`, `#`, `?` or `/` can leak from the message into the URL. */
  predicate UriSafe(t: string) {
    forall k :: 0 <= k < |t| ==> Unreserved(t[k]) || t[k] == '%'
  }

  lemma {:induction false} PercentBytesSafe(bytes: seq<nat>)
    requires forall k :: 0 <= k < |bytes| ==> bytes[k] < 256
    ensures UriSafe(PercentBytes(bytes))
    decreases |bytes|
  {
    if bytes != [] {
      PercentBytesSafe(bytes[1..]);
      var head := Escape(bytes[0]);
      assert UriSafe(head);
      SafeAppend(head, PercentBytes(bytes[1..]));
    }
  }

  lemma SafeAppend(a: string, b: string)
    requires UriSafe(a) && UriSafe(b)
    ensures UriSafe(a + b)
  {
    var ab := a + b;
    forall k | 0 <= k < |ab| ensures Unreserved(ab[k]) || ab[k] == '%' {
      if k >= |a| {
        assert ab[k] == b[k - |a|];
      }
    }
  }

  lemma {:induction false} EncodeUriComponentSafe(s: string)
    ensures UriSafe(EncodeUriComponent(s))
    decreases |s|
  {
    if s != [] {
      EncodeUriComponentSafe(s[1..]);
      if !Unreserved(s[0]) {
        PercentBytesSafe(Utf8(s[0]));
      }
      SafeAppend(EncodeChar(s[0]), EncodeUriComponent(s[1..]));
    }
  }

  /** Text with nothing to escape is left as it is. */
  lemma {:induction false} EncodeUriComponentOfUnreserved(s: string)
    requires forall k :: 0 <= k < |s| ==> Unreserved(s[k])
    ensures EncodeUriComponent(s) == s
    decreases |s|
  {
    if s != [] {
      EncodeUriComponentOfUnreserved(s[1..]);
    }
  }

  /** The value of a hex digit, if `c` is one. */
  function HexValue(c: char): Option<nat> {
    if '0' <= c <= '9' then Some(c as int - '0' as int)
    else if 'A' <= c <= 'F' then Some(c as int - 'A' as int + 10)
    else if 'a' <= c <= 'f' then Some(c as int - 'a' as int + 10)
    else None
  }

  lemma HexDigitValue(d: nat)
    requires d < 16
    ensures HexValue(HexDigit(d)) == Some(d)
  {
  }

  /** Percent-decoding to bytes, as a URL parser reads a query value: a `%`
      and two hex digits give one byte, any other ASCII character its own
      code. */
  function PercentDecode(t: string): Option<seq<nat>>
    decreases |t|
  {
    if t == [] then Some([])
    else if t[0] == '%' then
      if |t| >= 3 && HexValue(t[1]).Some? && HexValue(t[2]).Some? then
        match PercentDecode(t[3..])
        case Some(rest) => Some([HexValue(t[1]).value * 16 + HexValue(t[2]).value] + rest)
        case None => None
      else None
    else if (t[0] as int) < 0x80 then
      match PercentDecode(t[1..])
      case Some(rest) => Some([t[0] as int] + rest)
      case None => None
    else None
  }

  /** The escape step of the decoder on its own. */
  lemma DecodeStep(t: string, high: nat, low: nat)
    requires |t| >= 3 && t[0] == '%' && HexValue(t[1]) == Some(high) && HexValue(t[2]) == Some(low)
    requires PercentDecode(t[3..]).Some?
    ensures PercentDecode(t) == Some([high * 16 + low] + PercentDecode(t[3..]).value)
  {
  }

  lemma ByteDigits(b: nat)
    requires b < 256
    ensures b / 16 < 16 && b % 16 < 16 && (b / 16) * 16 + b % 16 == b
  {
  }

  /** One escaped byte decodes to itself. */
  lemma DecodeEscape(b: nat, tail: string)
    requires b < 256 && PercentDecode(tail).Some?
    ensures PercentDecode(Escape(b) + tail) == Some([b] + PercentDecode(tail).value)
  {
    ByteDigits(b);
    var hi, lo := b / 16, b % 16;
    HexDigitValue(hi);
    HexDigitValue(lo);
    var t := Escape(b) + tail;
    assert t[0] == '%' && t[1] == HexDigit(hi) && t[2] == HexDigit(lo);
    assert t[3..] == tail;
    DecodeStep(t, hi, lo);
  }

  lemma {:induction false} PercentBytesDecode(bytes: seq<nat>, rest: string)
    requires forall k :: 0 <= k < |bytes| ==> bytes[k] < 256
    requires PercentDecode(rest).Some?
    ensures PercentDecode(PercentBytes(bytes) + rest) == Some(bytes + PercentDecode(rest).value)
    decreases |bytes|
  {
    if bytes == [] {
      assert PercentBytes(bytes) + rest == rest;
      assert bytes + PercentDecode(rest).value == PercentDecode(rest).value;
    } else {
      var d := PercentDecode(rest).value;
      var tail := PercentBytes(bytes[1..]) + rest;
      PercentBytesDecode(bytes[1..], rest);
      assert PercentBytes(bytes) + rest == Escape(bytes[0]) + tail;
      DecodeEscape(bytes[0], tail);
      HeadAppend(bytes, d);
    }
  }

  lemma HeadAppend(s: seq<nat>, d: seq<nat>)
    requires s != []
    ensures [s[0]] + (s[1..] + d) == s + d
  {
    assert s == [s[0]] + s[1..];
  }

  /** Decoding the encoded text gives back the UTF-8 bytes of the original. */
  lemma {:induction false} EncodeUriComponentRoundTrip(s: string)
    ensures PercentDecode(EncodeUriComponent(s)) == Some(Utf8String(s))
    decreases |s|
  {
    if s != [] {
      EncodeUriComponentRoundTrip(s[1..]);
      var rest := EncodeUriComponent(s[1..]);
      if Unreserved(s[0]) {
        assert ([s[0]] + rest)[1..] == rest;
      } else {
        PercentBytesDecode(Utf8(s[0]), rest);
      }
    }
  }

  // ---------------------------------------------------------------------------
  // The redirect path
  // ---------------------------------------------------------------------------

  const DefaultPath: string := "/projects"

  /** `next && next.startsWith("/") ? next : "/projects"`, the rule as
      written. */
  function RedirectPath(next: Option<string>): (r: string)
    ensures StartsWith(r, "/")
    ensures next.Some? && StartsWith(next.value, "/") ==> r == next.value
    ensures !(next.Some? && StartsWith(next.value, "/")) ==> r == DefaultPath
  {
    if next.Some? && next.value != [] && StartsWith(next.value, "/") then next.value else DefaultPath
  }

  /** The characters the URL parser of the WHATWG URL Standard removes
      from its input wherever they occur. */
  predicate IsTabOrNewline(c: char) {
    c == '\t' || c == '\n' || c == '\r'
  }

  /** The text with every tab, line feed and carriage return removed, in
      order. */
  function StripTabOrNewline(s: string): (r: string)
    ensures |r| <= |s|
    ensures forall i :: 0 <= i < |r| ==> !IsTabOrNewline(r[i])
  {
    if s == [] then []
    else if IsTabOrNewline(s[0]) then StripTabOrNewline(s[1..])
    else [s[0]] + StripTabOrNewline(s[1..])
  }

  /** A reference whose first two characters, once tabs and newlines are
      removed, are slashes (a backslash counts as a slash in http and https
      URLs) names another host: the redirect would leave the site. */
  predicate LeavesSite(path: string) {
    var p := StripTabOrNewline(path);
    |p| >= 2 && (p[0] == '/' || p[0] == '\\') && (p[1] == '/' || p[1] == '\\')
  }

  /** The rule as written sends the browser to another host when `next`
      holds a protocol-relative reference. */
  lemma RedirectPathOpenRedirect()
    ensures RedirectPath(Some("//evil.example")) == "//evil.example"
    ensures LeavesSite(RedirectPath(Some("//evil.example")))
  {
    assert "//evil.example"[..1] == "/";
  }

  /** The rule as intended: a path on this site, else the project list. */
  function SafeRedirectPath(next: Option<string>): (r: string)
    ensures StartsWith(r, "/") && !LeavesSite(r)
    ensures next.Some? && StartsWith(next.value, "/") && !LeavesSite(next.value) ==> r == next.value
    ensures !(next.Some? && StartsWith(next.value, "/") && !LeavesSite(next.value)) ==> r == DefaultPath
  {
    assert StripTabOrNewline(DefaultPath)[..2] == "/p";
    if next.Some? && next.value != [] && StartsWith(next.value, "/") && !LeavesSite(next.value)
    then next.value else DefaultPath
  }

  /** A tab or newline between the two slashes hides them from a check of
      the raw text, but not from the URL parser: the rule as written lets
      such a reference through, and the corrected rule does not. */
  lemma TabbedSlashLeavesSite()
    ensures RedirectPath(Some("/\t/evil.example")) == "/\t/evil.example"
    ensures LeavesSite("/\t/evil.example")
    ensures SafeRedirectPath(Some("/\t/evil.example")) == DefaultPath
  {
    var rest := "evil.example";
    var s := "/\t/evil.example";
    assert s == ['/', '\t', '/'] + rest;
    assert s[..1] == "/";
    StripTabOrNewlineCons(['/', '\t', '/'], rest);
    assert StripTabOrNewline(['/', '\t', '/']) == "//";
  }

  lemma {:induction false} StripTabOrNewlineCons(a: string, b: string)
    ensures StripTabOrNewline(a + b) == StripTabOrNewline(a) + StripTabOrNewline(b)
    decreases |a|
  {
    if a == [] {
      assert a + b == b;
    } else {
      assert (a + b)[0] == a[0];
      assert (a + b)[1..] == a[1..] + b;
      StripTabOrNewlineCons(a[1..], b);
      if IsTabOrNewline(a[0]) {
        assert StripTabOrNewline(a + b) == StripTabOrNewline(a[1..] + b);
      } else {
        assert StripTabOrNewline(a + b) == [a[0]] + StripTabOrNewline(a[1..] + b);
        assert [a[0]] + (StripTabOrNewline(a[1..]) + StripTabOrNewline(b))
            == ([a[0]] + StripTabOrNewline(a[1..])) + StripTabOrNewline(b);
      }
    }
  }

  /** A path whose second character is neither a slash, a backslash, a tab
      nor a newline stays on the site. */
  lemma StaysOnSite(path: string)
    requires |path| >= 2 && !IsTabOrNewline(path[0])
    requires path[1] != '/' && path[1] != '\\' && !IsTabOrNewline(path[1])
    ensures !LeavesSite(path)
  {
    assert path == path[..2] + path[2..];
    StripTabOrNewlineCons(path[..2], path[2..]);
    assert path[..2] == [path[0]] + [path[1]];
    StripTabOrNewlineCons([path[0]], [path[1]]);
  }

  /** The two rules differ only on references that leave the site. */
  lemma SafeRedirectPathAgrees(next: Option<string>)
    requires next.None? || !LeavesSite(next.value)
    ensures SafeRedirectPath(next) == RedirectPath(next)
  {
  }

  // ---------------------------------------------------------------------------
  // The callback
  // ---------------------------------------------------------------------------

  const MissingCodeTarget: string := "/login?error=missing_code"
  const LoginErrorPrefix: string := "/login?error="

  /** `GET` of the callback with the rule as written: without a code the
      visitor goes back to the login page; a failed exchange goes there with
      the message; a good one goes to the redirect path. `exchange` gives
      the exchange's error message, if any. */
  function CallbackAsWritten(code: Option<string>, next: Option<string>, exchange: string -> Option<string>): string {
    if code.None? || code.value == [] then MissingCodeTarget
    else if exchange(code.value).Some? then LoginErrorPrefix + EncodeUriComponent(exchange(code.value).value)
    else RedirectPath(next)
  }

  /** The callback with the corrected rule. */
  function Callback(code: Option<string>, next: Option<string>, exchange: string -> Option<string>): string {
    if code.None? || code.value == [] then MissingCodeTarget
    else if exchange(code.value).Some? then LoginErrorPrefix + EncodeUriComponent(exchange(code.value).value)
    else SafeRedirectPath(next)
  }

  /** The three outcomes: a missing code never reaches the exchange; a
      failed exchange puts the message, encoded so that it decodes back and
      cannot break out of the parameter, on the login page; success follows
      the redirect path. Every target is a path on this site. */
  lemma CallbackOutcomes(code: Option<string>, next: Option<string>, exchange: string -> Option<string>,
                         other: string -> Option<string>)
    ensures code.None? || code.value == [] ==>
              Callback(code, next, exchange) == MissingCodeTarget
              && Callback(code, next, exchange) == Callback(code, next, other)
    ensures code.Some? && code.value != [] && exchange(code.value).Some? ==>
              var t := Callback(code, next, exchange);
              var value := t[|LoginErrorPrefix|..];
              && StartsWith(t, LoginErrorPrefix) && UriSafe(value)
              && PercentDecode(value) == Some(Utf8String(exchange(code.value).value))
    ensures code.Some? && code.value != [] && exchange(code.value).None? ==>
              Callback(code, next, exchange) == SafeRedirectPath(next)
    ensures StartsWith(Callback(code, next, exchange), "/") && !LeavesSite(Callback(code, next, exchange))
  {
    if code.Some? && code.value != [] && exchange(code.value).Some? {
      var msg := exchange(code.value).value;
      var t := Callback(code, next, exchange);
      assert t[|LoginErrorPrefix|..] == EncodeUriComponent(msg);
      EncodeUriComponentSafe(msg);
      EncodeUriComponentRoundTrip(msg);
      assert t[..|LoginErrorPrefix|] == LoginErrorPrefix;
      StaysOnSite(t);
    } else if code.None? || code.value == [] {
      StaysOnSite(MissingCodeTarget);
    }
  }

  /** The corrected callback differs from the one as written only when
      `next` leaves the site. */
  lemma CallbackFixOnlyChangesOffsiteNext(code: Option<string>, next: Option<string>, exchange: string -> Option<string>)
    ensures next.None? || !LeavesSite(next.value) ==> Callback(code, next, exchange) == CallbackAsWritten(code, next, exchange)
    ensures code == Some("c") && exchange("c").None? && next == Some("//evil.example") ==>
              LeavesSite(CallbackAsWritten(code, next, exchange)) && !LeavesSite(Callback(code, next, exchange))
  {
    RedirectPathOpenRedirect();
  }
}
