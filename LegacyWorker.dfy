/** The older background worker: `create_config` with its two script
    builders, and the `onMessage` (Connect) and `onStartup` listeners.

    Unlike the current builder it keeps the line feeds of its template,
    has no control-plane carve-out, proxies only two domains in the
    single-service script, parses the port without a radix, and takes the
    proxy endpoint from the message rather than from a profile. */
module LegacyWorker {
  import opened Text
  import opened Types
  import opened Pac
  import opened ProxyConfigBuilder

  /** The two hosts of the older single-service script. */
  const LegacyChatHosts: seq<string> := ["openai.com", "chatgpt.com"]

  const LegacyHead: string := "function FindProxyForURL(url, host) {"
  const LegacyIfOpen: string := "        if ("
  const LegacyIfClose: string := "){"
  const LegacyReturnOpen: string := "            return \""
  const LegacyReturnClose: string := "\";"
  const LegacyBlockClose: string := "        }"
  const LegacyDirectLine: string := "        return \"DIRECT\";"
  const LegacyFunctionClose: string := "    }"

  /** The six lines of the older template. */
  function LegacyLines(cond: string, directive: string): seq<string>
  {
    [LegacyHead, LegacyIfOpen + cond + LegacyIfClose, LegacyReturnOpen + directive + LegacyReturnClose,
     LegacyBlockClose, LegacyDirectLine, LegacyFunctionClose]
  }

  /** The older template literal, line feeds kept. */
  function LegacyScript(cond: string, directive: string): string
  {
    Join("\n", LegacyLines(cond, directive))
  }

  /** `${proxy_url}` of an absent url prints "undefined". */
  function LegacyDirective(proxyUrl: Option<string>): string
  {
    "SOCKS5 " + proxyUrl.GetOr("undefined")
  }

  /** `create_pac_script`. */
  function LegacyChatPac(proxyUrl: Option<string>): string
  {
    LegacyScript(Join(" || ", Calls(DnsTests(LegacyChatHosts))), LegacyDirective(proxyUrl))
  }

  /** `create_pac_script_custom_rule`: the list condition alone, the same
      text the current builder puts after its control-plane test. */
  function LegacyCustomPac(proxyUrl: Option<string>, mode: ProxyMode, urls: seq<string>): string
  {
    LegacyScript(ListCondition(mode, urls), LegacyDirective(proxyUrl))
  }

  /** `proxy_url.split(':')` and `parseInt(port)` with no radix, so a port
      written `0x...` is read as hexadecimal. */
  function LegacyEndpoint(url: string): (s: ProxyServer)
    ensures s.scheme == "socks5"
    ensures s.host == Endpoint(url).host
  {
    var fields := Split(url, ':');
    ProxyServer("socks5", fields[0], ParseInt(if |fields| > 1 then Some(fields[1]) else None, true))
  }

  /** `create_config`; `None` when it throws before calling back: the list
      of the chosen mode is absent from storage (`undefined.map`), or the
      fixed branch has no url to split. */
  function LegacyConfig(proxyUrl: Option<string>, prefs: Prefs): (r: Option<ProxyConfig>)
    ensures r.None? <==>
      (IsListMode(prefs.proxyMode) && StoredList(prefs, prefs.proxyMode.value).None?)
      || (UsesFixedProxy(prefs) && proxyUrl.None?)
    ensures r.Some? ==> (r.value.PacScript? <==> !UsesFixedProxy(prefs))
    ensures r.Some? && IsListMode(prefs.proxyMode) ==>
      r.value.data == LegacyCustomPac(proxyUrl, prefs.proxyMode.value,
                                      StoredList(prefs, prefs.proxyMode.value).value)
    ensures r.Some? && !IsListMode(prefs.proxyMode) && prefs.chatGPTOnly == Some(true) ==>
      r.value.data == LegacyChatPac(proxyUrl)
    ensures r.Some? && UsesFixedProxy(prefs) ==> r.value == FixedServers(LegacyEndpoint(proxyUrl.value))
  {
    var mode := prefs.proxyMode;
    if IsListMode(mode) then
      match StoredList(prefs, mode.value)
      case None => None
      case Some(urls) => Some(PacScript(LegacyCustomPac(proxyUrl, mode.value, urls)))
    else if prefs.chatGPTOnly == Some(true) then
      Some(PacScript(LegacyChatPac(proxyUrl)))
    else
      match proxyUrl
      case None => None
      case Some(url) => Some(FixedServers(LegacyEndpoint(url)))
  }

  /** `new Date(_expired).getTime()`; a null expiry is the epoch. */
  function LegacyExpiry(vm: VM): int
  {
    vm.expired.GetOr(0)
  }

  /** A runtime message: only Connect is handled. */
  datatype LegacyMessage = ConnectMessage(url: Option<string>) | OtherMessage(kind: string)

  /** The state the older worker touches: the browser proxy setting (`None`
      when cleared), the stored `vmData`, the stored preferences, and the
      replies sent so far. */
  class LegacyBackground {
    var proxy: Option<ProxyConfig>
    var vmData: Option<VM>
    var prefs: Prefs
    var replies: seq<Reply>

    constructor(prefs: Prefs, vmData: Option<VM>)
      ensures this.proxy == None && this.vmData == vmData && this.prefs == prefs && this.replies == []
    {
      this.proxy := None;
      this.vmData := vmData;
      this.prefs := prefs;
      this.replies := [];
    }

    /** The `onMessage` listener. `keepOpen` is its return value: true for
        Connect (the reply comes later), absent otherwise. A Connect whose
        configuration builds applies it and replies `{connected: true}`;
        anything else changes nothing and gets no reply. */
    method OnMessage(m: LegacyMessage) returns (keepOpen: bool)
      modifies this
      ensures keepOpen <==> m.ConnectMessage?
      ensures vmData == old(vmData) && prefs == old(prefs)
      ensures m.ConnectMessage? && LegacyConfig(m.url, prefs).Some? ==>
        proxy == LegacyConfig(m.url, prefs) && replies == old(replies) + [ConnectedReply(true)]
      ensures !(m.ConnectMessage? && LegacyConfig(m.url, prefs).Some?) ==>
        proxy == old(proxy) && replies == old(replies)
    {
      if m.ConnectMessage? {
        var config := LegacyConfig(m.url, prefs);
        if config.Some? {
          proxy := config;
          replies := replies + [ConnectedReply(true)];
        }
        keepOpen := true;
      } else {
        keepOpen := false;
      }
    }

    /** The `onStartup` listener: a stored session whose expiry is strictly
        before `now` is purged together with the proxy setting. Afterwards
        no expired session is stored. */
    method OnStartup(now: int)
      modifies this
      ensures prefs == old(prefs) && replies == old(replies)
      ensures old(vmData).Some? && LegacyExpiry(old(vmData).value) < now ==> proxy == None && vmData == None
      ensures !(old(vmData).Some? && LegacyExpiry(old(vmData).value) < now) ==>
        proxy == old(proxy) && vmData == old(vmData)
      ensures vmData.Some? ==> LegacyExpiry(vmData.value) >= now
    {
      if vmData.Some? && LegacyExpiry(vmData.value) < now {
        proxy := None;
        vmData := None;
      }
    }
  }

  // ---------------------------------------------------------------------
  // Lemmas

  /** Pieces free of line feeds make a script of exactly six lines, the
      condition on the second and the directive on the third. */
  lemma LegacyScriptLines(cond: string, directive: string)
    requires '\n' !in cond && '\n' !in directive
    ensures Split(LegacyScript(cond, directive), '\n') == LegacyLines(cond, directive)
  {
    var lines := LegacyLines(cond, directive);
    forall i | 0 <= i < |lines| ensures '\n' !in lines[i] {
      if i == 1 {
        NoNewlineBetween(LegacyIfOpen, cond, LegacyIfClose);
      } else if i == 2 {
        NoNewlineBetween(LegacyReturnOpen, directive, LegacyReturnClose);
      }
    }
    SplitJoin(lines, '\n');
  }

  lemma NoNewlineBetween(a: string, x: string, b: string)
    requires '\n' !in a && '\n' !in x && '\n' !in b
    ensures '\n' !in a + x + b
  {
  }

  /** The older single-service script proxies exactly the two domains, and
      they are among the four of the current script. */
  lemma LegacyChatRuleMeaning(holds: PacTest -> bool)
    ensures Join(" || ", Calls(DnsTests(LegacyChatHosts))) == Render(AnyOf(DnsTests(LegacyChatHosts)))
    ensures Eval(AnyOf(DnsTests(LegacyChatHosts)), holds)
        <==> holds(DnsDomainIs("openai.com")) || holds(DnsDomainIs("chatgpt.com"))
    ensures forall i :: 0 <= i < |LegacyChatHosts| ==> LegacyChatHosts[i] == ChatGptHosts[i]
  {
    var ts := DnsTests(LegacyChatHosts);
    RenderAnyOf(ts);
    EvalAnyOf(ts, holds);
    assert ts[0] == DnsDomainIs("openai.com") && ts[1] == DnsDomainIs("chatgpt.com");
  }

  /** The older custom rule has no control-plane test: the `if` line of
      its script holds the list rule alone, and an empty list leaves
      `if ()`. */
  lemma LegacyCustomCondition(proxyUrl: Option<string>, mode: ProxyMode, urls: seq<string>)
    requires '\n' !in proxyUrl.GetOr("")
    requires forall i :: 0 <= i < |urls| ==> '\n' !in urls[i]
    ensures var lines := Split(LegacyCustomPac(proxyUrl, mode, urls), '\n');
            && |lines| == 6
            && (|urls| > 0 ==> lines[1] == LegacyIfOpen + Render(ListRule(mode, urls)) + LegacyIfClose)
            && (|urls| == 0 ==> lines[1] == LegacyIfOpen + LegacyIfClose)
  {
    ListConditionOneLine(mode, urls);
    var directive := LegacyDirective(proxyUrl);
    assert '\n' !in directive by {
      assert '\n' !in "undefined";
      NoNewlineBetween("SOCKS5 ", proxyUrl.GetOr("undefined"), "");
      assert directive == "SOCKS5 " + proxyUrl.GetOr("undefined") + "";
    }
    LegacyScriptLines(ListCondition(mode, urls), directive);
    if |urls| > 0 {
      ListConditionRendered(mode, urls);
    } else {
      assert LegacyIfOpen + "" + LegacyIfClose == LegacyIfOpen + LegacyIfClose;
    }
  }

  /** Entries without line feeds give a list condition without any. */
  lemma ListConditionOneLine(mode: ProxyMode, urls: seq<string>)
    requires forall i :: 0 <= i < |urls| ==> '\n' !in urls[i]
    ensures '\n' !in ListCondition(mode, urls)
  {
    var ts := Patterns(urls);
    if mode == Whitelist {
      forall i | 0 <= i < |ts| ensures '\n' !in Calls(ts)[i] {
        CallsAt(ts, i);
        NoNewlineBetween("shExpMatch(host, \"", urls[i], "\")");
      }
      JoinNoNewline(" || ", Calls(ts));
    } else {
      forall i | 0 <= i < |ts| ensures '\n' !in NegatedCalls(ts)[i] {
        NegatedCallsAt(ts, i);
        NoNewlineBetween("shExpMatch(host, \"", urls[i], "\")");
        NoNewlineBetween("!", CallText(ts[i]), "");
        assert "!" + CallText(ts[i]) + "" == "!" + CallText(ts[i]);
      }
      JoinNoNewline(" && ", NegatedCalls(ts));
    }
  }

  /** A url `host:port...` gives that host and port, as in the current
      builder, as long as the port is written in decimal. */
  lemma LegacyEndpointOfHostPort(host: string, port: nat, rest: string)
    requires ':' !in host
    requires rest == [] || rest[0] == ':'
    ensures LegacyEndpoint(host + ":" + DecimalText(port) + rest) == ProxyServer("socks5", host, Some(port))
    ensures LegacyEndpoint(host + ":" + DecimalText(port) + rest) == Endpoint(host + ":" + DecimalText(port) + rest)
  {
    var d := DecimalText(port);
    var url := host + ":" + d + rest;
    assert url == host + [':'] + (d + rest);
    SplitAtFirst(host, ':', d + rest);
    var fields := Split(url, ':');
    assert fields == [host] + Split(d + rest, ':');
    FirstFieldDigits(d, rest);
    assert fields[1] == d;
    ParseDecimalText(port, [], true);
    assert d + [] == d;
    EndpointOfHostPort(host, port, rest);
  }

  /** Where the two builders differ: a port written `0x` followed by hex
      digits is read in base 16 here and as 0 by the current builder. */
  lemma HexPortDiffers(host: string, port: string)
    requires ':' !in host
    requires |port| > 2 && port[0] == '0' && port[1] == 'x'
    requires forall i :: 2 <= i < |port| ==> DigitValue(port[i], 16) >= 0
    ensures LegacyEndpoint(host + ":" + port).port == Some(DigitsValue(port[2..], 16))
    ensures Endpoint(host + ":" + port).port == Some(0)
  {
    var url := host + ":" + port;
    assert url == host + [':'] + port;
    SplitAtFirst(host, ':', port);
    assert ':' !in port by {
      forall i | 0 <= i < |port| ensures port[i] != ':' {
        if i >= 2 { assert DigitValue(port[i], 16) >= 0; }
      }
    }
    SplitNoSeparator(port, ':');
    assert Split(url, ':') == [host, port];
    HexDigitsParse(port);
    DecimalZeroBeforeX(port);
  }

  lemma HexDigitsParse(p: string)
    requires |p| > 2 && p[0] == '0' && p[1] == 'x'
    requires forall i :: 2 <= i < |p| ==> DigitValue(p[i], 16) >= 0
    ensures ParseInt(Some(p), true) == Some(DigitsValue(p[2..], 16))
  {
    var hex := p[2..];
    assert forall i :: 0 <= i < |hex| ==> DigitValue(hex[i], 16) >= 0 by {
      forall i | 0 <= i < |hex| ensures DigitValue(hex[i], 16) >= 0 {
        assert hex[i] == p[i + 2];
      }
    }
    assert TrimStart(p) == p;
    assert ParseMagnitude(p, true) == ParseDigits(hex, 16);
    RunOverDigits(hex, [], 16);
    assert hex + [] == hex;
    assert hex[..|hex|] == hex;
  }

  lemma DecimalZeroBeforeX(p: string)
    requires |p| > 1 && p[0] == '0' && p[1] == 'x'
    ensures ParseInt(Some(p), false) == Some(0)
  {
    assert TrimStart(p) == p;
    assert p[1..][0] == 'x';
    assert DigitRun(p[1..], 10) == 0;
    assert DigitRun(p, 10) == 1;
    assert DigitsValue(p[..1], 10) == 0;
  }
}
