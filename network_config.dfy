/** How the adapters' URL sessions are configured: a SOCKS proxy taken from
    the stored settings, applied only when those settings are complete. */
module NetworkConfig {
  import opened Wrappers
  import opened Defaults

  /** Swift's `Int` is 64 bits wide on the platforms the app runs on. */
  const IntMin: int := -0x8000_0000_0000_0000
  const IntMax: int := 0x7FFF_FFFF_FFFF_FFFF

  predicate IsDigit(c: char) { '0' <= c <= '9' }

  predicate AllDigits(s: string) {
    forall i :: 0 <= i < |s| ==> IsDigit(s[i])
  }

  /** The value of a run of decimal digits. */
  function DigitsValue(s: string): nat
    requires AllDigits(s)
    decreases |s|
  {
    if s == [] then 0
    else
      assert IsDigit(s[|s| - 1]);
      DigitsValue(s[..|s| - 1]) * 10 + (s[|s| - 1] as int - '0' as int)
  }

  /** `Int(s)`: an optional `+` or `-` followed by at least one decimal
      digit, and nothing else; the value must fit in 64 bits. Leading zeros
      are allowed. */
  function ParseInt(s: string): (r: Option<int>)
    ensures r.Some? <==>
      || (s != [] && AllDigits(s) && DigitsValue(s) <= IntMax)
      || (|s| > 1 && s[0] == '+' && AllDigits(s[1..]) && DigitsValue(s[1..]) <= IntMax)
      || (|s| > 1 && s[0] == '-' && AllDigits(s[1..]) && DigitsValue(s[1..]) <= -IntMin)
    ensures r.Some? && AllDigits(s) ==> r.value == DigitsValue(s)
    ensures r.Some? && |s| > 1 && s[0] == '+' && AllDigits(s[1..]) ==> r.value == DigitsValue(s[1..])
    ensures r.Some? && |s| > 1 && s[0] == '-' && AllDigits(s[1..]) ==> r.value == 0 - DigitsValue(s[1..])
    ensures r.Some? ==> IntMin <= r.value <= IntMax
  {
    if s == [] then None
    else
      var negative := s[0] == '-';
      var digits := if s[0] == '-' || s[0] == '+' then s[1..] else s;
      if digits == [] || !AllDigits(digits) then None
      else
        var v: int := if negative then 0 - DigitsValue(digits) else DigitsValue(digits);
        if IntMin <= v <= IntMax then Some(v) else None
  }

  /** The decimal rendering of a natural number, without sign or leading
      zeros: the reference against which `ParseInt` is checked. */
  function Decimal(n: nat): (s: string)
    ensures s != [] && AllDigits(s)
    decreases n
  {
    var last := ['0' + ((n % 10) as char)];
    if n < 10 then last else Decimal(n / 10) + last
  }

  lemma {:induction false} DecimalValue(n: nat)
    ensures DigitsValue(Decimal(n)) == n
    decreases n
  {
    var s := Decimal(n);
    assert s[..|s| - 1] == if n < 10 then [] else Decimal(n / 10);
    if n >= 10 { DecimalValue(n / 10); }
  }

  /** Every port number written out in decimal is read back as itself, and
      so is its negation. */
  lemma ParseDecimal(n: nat)
    ensures n <= IntMax ==> ParseInt(Decimal(n)) == Some(n)
    ensures n <= -IntMin ==> ParseInt("-" + Decimal(n)) == Some(0 - n as int)
  {
    DecimalValue(n);
    var s := "-" + Decimal(n);
    assert s[1..] == Decimal(n);
  }

  /** A sign and leading zeros are accepted, as `Int(_:)` accepts them. */
  lemma ParseAcceptsSignAndZeros()
    ensures ParseInt("+1080") == Some(1080)
    ensures ParseInt("01080") == Some(1080)
    ensures ParseInt("-1") == Some(-1)
  {
    assert DigitsValue("1080") == 1080 by {
      assert "1080"[..3] == "108" && "108"[..2] == "10" && "10"[..1] == "1" && "1"[..0] == "";
    }
    assert DigitsValue("01080") == 1080 by {
      assert "01080"[..4] == "0108" && "0108"[..3] == "010" && "010"[..2] == "01" && "01"[..1] == "0" && "0"[..0] == "";
    }
    assert "+1080"[1..] == "1080";
    assert "-1"[1..] == "1" && "1"[..0] == "";
  }

  /** Surrounding spaces make a port unreadable. */
  lemma ParseRejectsSpaces(s: string)
    ensures ParseInt(" " + s) == None
    ensures ParseInt(s + " ") == None
  {
    var t := s + " ";
    if t[0] == '-' || t[0] == '+' { assert t[1..][|t| - 2] == ' '; }
    else { assert t[|t| - 1] == ' '; }
  }

  datatype Proxy = Socks(host: string, port: int)

  /** The one property of a URL session the model keeps: its proxy. */
  datatype Session = Session(proxy: Option<Proxy>)

  /** `URLSession.shared`: never proxied. */
  const SharedSession := Session(None)

  /** `NetworkConfig.configuredSession()`: a SOCKS proxy with the stored
      host and port when the proxy is switched on, the host is stored and
      non-empty and the stored port reads as an `Int`; otherwise a direct
      session. */
  function ConfiguredSession(d: Store): (s: Session)
    ensures s.proxy.Some? <==>
      && BoolFor(d, UseProxy)
      && StringOr(d, ProxyHost, "") != ""
      && StringFor(d, ProxyPort).Some? && ParseInt(StringFor(d, ProxyPort).value).Some?
    ensures s.proxy.Some? ==>
      && StringFor(d, ProxyHost) == Some(s.proxy.value.host)
      && ParseInt(StringOr(d, ProxyPort, "")) == Some(s.proxy.value.port)
  {
    var host := StringFor(d, ProxyHost);
    var port := if StringFor(d, ProxyPort).Some? then ParseInt(StringFor(d, ProxyPort).value) else None;
    if BoolFor(d, UseProxy) && host.Some? && port.Some? && host.value != "" then
      Session(Some(Socks(host.value, port.value)))
    else
      Session(None)
  }

  /** Complete settings do configure the proxy: any port text `Int(_:)`
      reads, with its sign and leading zeros, gives that port. */
  lemma ProxyWhenComplete(d: Store, host: string, portText: string, port: int)
    requires BoolFor(d, UseProxy)
    requires StringFor(d, ProxyHost) == Some(host) && host != ""
    requires StringFor(d, ProxyPort) == Some(portText) && ParseInt(portText) == Some(port)
    ensures ConfiguredSession(d) == Session(Some(Socks(host, port)))
  {
  }
}
