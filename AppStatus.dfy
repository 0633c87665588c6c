/** The popup's older connection check (`getProxyData`): it reads the proxy
    setting and reports connected when a fixed proxy points at a host of the
    service, with the country code taken from the host name.

    The two regular expressions are modelled by what they accept: `.`
    matches any character but a line terminator, and `^`/`$` anchor at the
    ends of the host. */
module AppStatus {
  import opened Text
  import opened Types
  import ProxyConfigBuilder

  /** The service's domain, matched at the end of the host. */
  const ServiceSuffix: string := "vpn.cocomine.cc"
  /** The same with the dot before it, after the country code. */
  const DottedSuffix: string := ".vpn.cocomine.cc"

  /** The proxy value the browser reports: its mode and, for fixed servers,
      the host of `rules.singleProxy` when there is one. */
  datatype ProxyValue = ProxyValue(mode: ProxyModeName, singleProxyHost: Option<string>)

  /** What the promise settles to. */
  datatype ProxyStatusResult = Rejected | Resolved(connected: bool, country: Option<string>)

  predicate IsLineTerminator(c: char)
  {
    c == '\n' || c == '\r' || c == '\U{2028}' || c == '\U{2029}'
  }

  predicate NoLineTerminator(s: string)
  {
    forall i :: 0 <= i < |s| ==> !IsLineTerminator(s[i])
  }

  /** `/^(.*)(vpn\.cocomine\.cc)$/` as the regex engine reads it: some split
      of the host into a line of any characters followed by the domain. */
  ghost predicate ServiceHostRegex(host: string)
  {
    exists k :: 0 <= k <= |host| && NoLineTerminator(host[..k]) && host[k..] == ServiceSuffix
  }

  /** The same test done directly: a plain suffix test on one line. */
  predicate IsServiceHost(host: string)
  {
    EndsWith(host, ServiceSuffix) && NoLineTerminator(host[..|host| - |ServiceSuffix|])
  }

  /** `/^(.*)(.{2})(\.vpn\.cocomine\.cc)$/`, group 2: the two characters
      captured when the host splits, at some `j`, into a line ending in two
      characters followed by the dotted domain. */
  ghost predicate CountryRegex(host: string, code: string)
  {
    exists j :: 2 <= j <= |host| && NoLineTerminator(host[..j]) && host[j..] == DottedSuffix
                && code == host[j - 2..j]
  }

  /** ASCII `toUpperCase`. */
  function UpperChar(c: char): char
  {
    if 'a' <= c <= 'z' then (c as int - 32) as char else c
  }

  function Upper(s: string): (r: string)
    ensures |r| == |s| && forall i :: 0 <= i < |s| ==> r[i] == UpperChar(s[i])
  {
    seq(|s|, i requires 0 <= i < |s| => UpperChar(s[i]))
  }

  /** `rexArray && rexArray[2].toUpperCase()`. */
  function CountryCode(host: string): Option<string>
  {
    var n := |host|;
    if n >= |DottedSuffix| + 2 && EndsWith(host, DottedSuffix) && NoLineTerminator(host[..n - |DottedSuffix|])
    then Some(Upper(host[n - |DottedSuffix| - 2..n - |DottedSuffix|]))
    else None
  }

  /** `getProxyData`: rejected without the proxy API; otherwise connected
      with the country code for a fixed proxy at a service host, and not
      connected with no country for anything else. */
  function GetProxyData(available: bool, value: ProxyValue): (r: ProxyStatusResult)
    ensures r.Rejected? <==> !available
    ensures r.Resolved? ==>
      (r.connected <==> value.mode == FixedServersMode && value.singleProxyHost.Some?
                        && ServiceHostRegex(value.singleProxyHost.value))
    ensures r.Resolved? && r.connected ==>
      (r.country.Some? <==> exists code :: CountryRegex(value.singleProxyHost.value, code))
    ensures r.Resolved? && r.connected ==>
      forall code :: CountryRegex(value.singleProxyHost.value, code) ==> r.country == Some(Upper(code))
    ensures r.Resolved? && !r.connected ==> r.country.None?
  {
    if !available then Rejected
    else if value.mode == FixedServersMode && value.singleProxyHost.Some? && IsServiceHost(value.singleProxyHost.value) then
      var host := value.singleProxyHost.value;
      ServiceHostMatches(host);
      CountryCodeMatches(host);
      Resolved(true, CountryCode(host))
    else
      ServiceHostMatches(if value.singleProxyHost.Some? then value.singleProxyHost.value else "");
      Resolved(false, None)
  }

  // ---------------------------------------------------------------------
  // Lemmas

  lemma SuffixesOneLine()
    ensures NoLineTerminator(ServiceSuffix) && NoLineTerminator(DottedSuffix)
    ensures |ServiceSuffix| == 15 && |DottedSuffix| == 16
    ensures DottedSuffix[1..] == ServiceSuffix
  {
  }

  /** The direct test accepts exactly the hosts the first expression does. */
  lemma ServiceHostMatches(host: string)
    ensures IsServiceHost(host) <==> ServiceHostRegex(host)
  {
    SuffixesOneLine();
    var k := |host| - |ServiceSuffix|;
    if IsServiceHost(host) {
      assert NoLineTerminator(host[..k]) && host[k..] == ServiceSuffix;
    }
    if ServiceHostRegex(host) {
      var j :| 0 <= j <= |host| && NoLineTerminator(host[..j]) && host[j..] == ServiceSuffix;
      assert j == k;
    }
  }

  /** `CountryCode` finds a code exactly when the second expression
      matches, and it is the upper-cased group 2 of that match. */
  lemma CountryCodeMatches(host: string)
    ensures CountryCode(host).Some? <==> exists code :: CountryRegex(host, code)
    ensures forall code :: CountryRegex(host, code) ==> CountryCode(host) == Some(Upper(code))
  {
    SuffixesOneLine();
    var n := |host|;
    var m := n - |DottedSuffix|;
    forall code | CountryRegex(host, code) ensures CountryCode(host) == Some(Upper(code)) {
      var j :| 2 <= j <= n && NoLineTerminator(host[..j]) && host[j..] == DottedSuffix
               && code == host[j - 2..j];
      assert j == m;
    }
    if CountryCode(host).Some? {
      assert host[m..] == DottedSuffix;
      assert CountryRegex(host, host[m - 2..m]);
    }
  }

  /** The suffix test is plain: any one-line prefix, such as "evil", in
      front of the domain still counts as connected. */
  lemma AnyPrefixConnects(prefix: string)
    requires NoLineTerminator(prefix)
    ensures GetProxyData(true, ProxyValue(FixedServersMode, Some(prefix + ServiceSuffix))).connected
  {
    SuffixesOneLine();
    var host := prefix + ServiceSuffix;
    assert host[..|host| - |ServiceSuffix|] == prefix;
    assert host[|host| - |ServiceSuffix|..] == ServiceSuffix;
  }

  /** The bare domain is connected but has no country code. */
  lemma BareDomainHasNoCountry()
    ensures GetProxyData(true, ProxyValue(FixedServersMode, Some(ServiceSuffix))) == Resolved(true, None)
  {
    SuffixesOneLine();
    assert ServiceSuffix[..0] == [];
  }

  /** Any other mode, a PAC script included, is not connected. */
  lemma OtherModesDisconnected(mode: ProxyModeName, host: Option<string>)
    requires mode != FixedServersMode
    ensures GetProxyData(true, ProxyValue(mode, host)) == Resolved(false, None)
  {
  }

  /** A host of the form `<cc>.vpn.cocomine.cc` reads as connected with
      country `CC`. */
  lemma CountryHostStatus(cc: string)
    requires |cc| == 2 && NoLineTerminator(cc)
    ensures GetProxyData(true, ProxyValue(FixedServersMode, Some(cc + DottedSuffix))) == Resolved(true, Some(Upper(cc)))
  {
    SuffixesOneLine();
    var host := cc + DottedSuffix;
    assert host[2..] == DottedSuffix;
    assert host[3..] == ServiceSuffix;
    assert host[..3] == cc + ['.'];
    assert host[..2] == cc;
    assert host[0..2] == cc;
  }

  /** End to end: a fixed proxy the builder makes from a profile at
      `<cc>.vpn.cocomine.cc:<port>` reads as connected with country `CC`. */
  lemma BuiltServiceEndpoint(cc: string, port: nat)
    requires |cc| == 2 && NoLineTerminator(cc) && ':' !in cc
    ensures var server := ProxyConfigBuilder.Endpoint(cc + DottedSuffix + ":" + DecimalText(port));
            GetProxyData(true, ProxyValue(FixedServersMode, Some(server.host))) == Resolved(true, Some(Upper(cc)))
  {
    var host := cc + DottedSuffix;
    assert ':' !in DottedSuffix;
    assert ':' !in host;
    ProxyConfigBuilder.EndpointOfHostPort(host, port, []);
    assert host + ":" + DecimalText(port) + [] == cc + DottedSuffix + ":" + DecimalText(port);
    CountryHostStatus(cc);
  }
}
