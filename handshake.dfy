/**
 * The UPnP GENA subscription request that `Events.start` sends to the
 * speaker (UPnP Device Architecture 1.0, section 4.1): the SUBSCRIBE verb
 * on the AVTransport event URL, with a CALLBACK header naming the local
 * callback server and the NT header `upnp:event`. The parsers below are
 * the inverses the formatting functions are proved against.
 */
module Handshake {
  import opened Wrappers
  import opened Http

  const SubscribeVerb: string := "SUBSCRIBE"
  const NotificationType: string := "upnp:event"

  /** What `Events.AVTRANSPORT_ENDPOINT` puts before and after the speaker's address. */
  const EndpointPrefix: string := "http://"
  const EndpointSuffix: string := ":1400/MediaRenderer/AVTransport/Event"

  const CallbackPrefix: string := "<http://"

  predicate IsDigit(c: char) { '0' <= c <= '9' }

  predicate AllDigits(s: string) { forall i :: 0 <= i < |s| ==> IsDigit(s[i]) }

  function DigitChar(d: nat): char
    requires d < 10
  {
    ('0' as int + d) as char
  }

  /** `str(n)` for a non-negative integer: decimal digits without leading zeros. */
  function Decimal(n: nat): (s: string)
    ensures |s| >= 1 && AllDigits(s)
    ensures s[0] == '0' ==> n == 0
    decreases n
  {
    if n < 10 then [DigitChar(n)] else Decimal(n / 10) + [DigitChar(n % 10)]
  }

  /** The number a string of decimal digits denotes. */
  function DigitsValue(s: string): nat
    requires AllDigits(s)
  {
    if s == [] then 0 else DigitsValue(s[..|s| - 1]) * 10 + (s[|s| - 1] as int - '0' as int)
  }

  lemma {:induction false} DecimalRoundTrip(n: nat)
    ensures DigitsValue(Decimal(n)) == n
    decreases n
  {
    if n >= 10 {
      DecimalRoundTrip(n / 10);
      var s := Decimal(n);
      assert s[..|s| - 1] == Decimal(n / 10);
    }
  }

  /** `'<http://{0}:{1}>'.format(ip, port)` */
  function CallbackHeader(ip: string, port: nat): (h: string)
    ensures |h| == |CallbackPrefix| + |ip| + |Decimal(port)| + 2
    ensures h[..|CallbackPrefix|] == CallbackPrefix
    ensures h[|CallbackPrefix|..|CallbackPrefix| + |ip|] == ip
    ensures h[|CallbackPrefix| + |ip|] == ':'
    ensures h[|CallbackPrefix| + |ip| + 1..|h| - 1] == Decimal(port)
    ensures h[|h| - 1] == '>'
  {
    CallbackPrefix + ip + ":" + Decimal(port) + ">"
  }

  /** `AVTRANSPORT_ENDPOINT.format(speaker_ip)` */
  function Endpoint(speakerIp: string): (url: string)
    ensures |url| == |EndpointPrefix| + |speakerIp| + |EndpointSuffix|
    ensures url[..|EndpointPrefix|] == EndpointPrefix
    ensures url[|EndpointPrefix|..|EndpointPrefix| + |speakerIp|] == speakerIp
    ensures url[|EndpointPrefix| + |speakerIp|..] == EndpointSuffix
  {
    EndpointPrefix + speakerIp + EndpointSuffix
  }

  /** The headers dictionary `start` builds, in its insertion order. */
  function SubscribeHeaders(ip: string, port: nat): (hs: seq<Header>)
    ensures |hs| == 2
    ensures HeaderValue(hs, "Callback") == Some(CallbackHeader(ip, port))
    ensures HeaderValue(hs, "NT") == Some(NotificationType)
  {
    [("Callback", CallbackHeader(ip, port)), ("NT", NotificationType)]
  }

  /** `requests.request('SUBSCRIBE', endpoint, headers=headers)` */
  function SubscribeRequest(speakerIp: string, localIp: string, port: nat): (r: Request)
    ensures r.verb == SubscribeVerb
    ensures SpeakerOf(r.url) == Some(speakerIp)
    ensures HeaderValue(r.headers, "NT") == Some(NotificationType)
    ensures HeaderValue(r.headers, "Callback").Some?
    ensures ParseCallback(HeaderValue(r.headers, "Callback").value) == Some((localIp, port))
  {
    EndpointRoundTrip(speakerIp);
    CallbackRoundTrip(localIp, port);
    Request(SubscribeVerb, Endpoint(speakerIp), SubscribeHeaders(localIp, port))
  }

  /** The speaker address an AVTransport event URL names, if it is one. */
  function SpeakerOf(url: string): Option<string> {
    if |url| >= |EndpointPrefix| + |EndpointSuffix|
       && url[..|EndpointPrefix|] == EndpointPrefix
       && url[|url| - |EndpointSuffix|..] == EndpointSuffix
    then Some(url[|EndpointPrefix|..|url| - |EndpointSuffix|])
    else None
  }

  /** The position of the last ':' in `s`, if any. */
  function LastColon(s: string): (r: Option<nat>)
    ensures r.Some? ==> r.value < |s| && s[r.value] == ':' && forall j :: r.value < j < |s| ==> s[j] != ':'
    ensures r.None? ==> forall j :: 0 <= j < |s| ==> s[j] != ':'
  {
    if s == [] then None
    else if s[|s| - 1] == ':' then Some(|s| - 1)
    else LastColon(s[..|s| - 1])
  }

  /** The (address, port) a Callback header value names, if it is one. */
  function ParseCallback(h: string): Option<(string, nat)> {
    if |h| < |CallbackPrefix| + 1 || h[..|CallbackPrefix|] != CallbackPrefix || h[|h| - 1] != '>' then None
    else
      var inner := h[|CallbackPrefix|..|h| - 1];
      match LastColon(inner)
      case None => None
      case Some(i) =>
        var digits := inner[i + 1..];
        if digits != [] && AllDigits(digits) then Some((inner[..i], DigitsValue(digits))) else None
  }

  /** The endpoint URL determines the speaker address it was built from. */
  lemma EndpointRoundTrip(speakerIp: string)
    ensures SpeakerOf(Endpoint(speakerIp)) == Some(speakerIp)
  {
  }

  /**
   * The Callback header determines the address and the port it was built
   * from, whatever the address contains: the port is read after the last ':'.
   */
  lemma CallbackRoundTrip(ip: string, port: nat)
    ensures ParseCallback(CallbackHeader(ip, port)) == Some((ip, port))
  {
    var h := CallbackHeader(ip, port);
    var digits := Decimal(port);
    var inner := h[|CallbackPrefix|..|h| - 1];
    assert inner[..|ip|] == ip;
    assert inner[|ip|] == ':';
    assert inner[|ip| + 1..] == digits;
    LastColonAfterDigits(inner, |ip|);
    DecimalRoundTrip(port);
  }

  /** In `s`, a ':' followed only by digits is the last ':'. */
  lemma LastColonAfterDigits(s: string, i: nat)
    requires i < |s| && s[i] == ':' && AllDigits(s[i + 1..])
    ensures LastColon(s) == Some(i)
  {
    forall j | i < j < |s| ensures s[j] != ':' {
      assert s[j] == s[i + 1..][j - i - 1];
    }
  }

}
